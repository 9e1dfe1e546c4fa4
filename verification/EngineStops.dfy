/** An e-stop out of a match is lifted only once the Driver Station has been
    seen to stop its robot. */
module EngineStops {
  import opened Field
  import opened EngineState
  import opened EngineSafety
  import opened EngineMark

  // ── The waits after every step ────────────────────────────────────

  /** The e-stops out of a match, each with the time it began, and among them
      those still waiting for their Driver Station. */
  ghost predicate Settled(e: Engine) {
    && (forall s: Station :: s in e.stops.since <==> OutStopped(e, s))
    && e.stops.waits <= e.stops.since.Keys
  }

  lemma FreshBroadcastSettles(env: Env, e: Engine)
    ensures Settled(Broadcast(env, e))
  {
  }

  /** What the evidence about station `s` rests on. */
  ghost predicate SameNews(x: Engine, y: Engine) {
    x.heard.control == y.heard.control && x.heard.heartbeat == y.heard.heartbeat && x.stops.silenceFrom == y.stops.silenceFrom
  }

  /** How the wait of station `s` goes on from `x` to `y`, at one time: what
      began keeps its beginning, and a wait ends only on evidence. */
  ghost predicate Goes(env: Env, x: Engine, y: Engine, s: Station) {
    s in x.stops.since && OutStopped(y, s) ==>
      && s in y.stops.since && y.stops.since[s] == x.stops.since[s]
      && (s !in y.stops.waits ==> s !in x.stops.waits || DsStopped(y, s, y.stops.since[s], env.now))
  }

  /** An e-stop of a robot begins with a wait, unless there is evidence already. */
  ghost predicate Begins(env: Env, x: Engine, y: Engine, s: Station) {
    s !in x.stops.since && s in y.stops.since ==>
      && y.stops.since[s] == env.now
      && (s in env.teamed && s !in y.stops.waits ==> DsStopped(y, s, env.now, env.now))
  }

  ghost predicate Follows(env: Env, x: Engine, y: Engine, s: Station) {
    SameNews(x, y) && Goes(env, x, y, s) && Begins(env, x, y, s)
  }

  lemma BroadcastAt(env: Env, e: Engine, s: Station)
    ensures var e' := Broadcast(env, e);
            && SameNews(e, e') && OutStopped(e', s) == OutStopped(e, s)
            && (s in e'.stops.since <==> OutStopped(e, s)) && (s in e'.stops.waits ==> OutStopped(e, s))
            && (OutStopped(e, s) ==> e'.stops.since[s] == if s in e.stops.since then e.stops.since[s] else env.now)
            && (OutStopped(e, s) ==>
                  (s in e'.stops.waits <==>
                     && (s in e.stops.waits || (s !in e.stops.since && s in env.teamed))
                     && !DsStopped(e, s, e'.stops.since[s], env.now)))
  {
  }

  lemma BroadcastFollows(env: Env, x: Engine, y: Engine, s: Station)
    requires SameNews(x, y) && y.stops == x.stops
    ensures Follows(env, x, Broadcast(env, y), s)
  {
    hide Broadcast, DsStopped, OutStopped;
    var e' := Broadcast(env, y);
    BroadcastAt(env, y, s);
    if OutStopped(y, s) {
      SameEvidence(y, e', s, e'.stops.since[s], env.now);
    }
  }

  lemma SameEvidence(x: Engine, y: Engine, s: Station, since: int, now: int)
    requires SameNews(x, y)
    ensures DsStopped(x, s, since, now) == DsStopped(y, s, since, now)
  {
  }

  lemma ThenFollows(env: Env, x: Engine, mid: Engine, y: Engine, s: Station)
    requires Follows(env, x, mid, s) && Follows(env, mid, y, s)
    requires OutStopped(x, s) ==> OutStopped(mid, s)
    requires Settled(x) && Settled(mid) && Settled(y)
    ensures Follows(env, x, y, s)
  {
    hide DsStopped;
    assert s in x.stops.since <==> OutStopped(x, s);
    assert s in mid.stops.since <==> OutStopped(mid, s);
    assert s in y.stops.since <==> OutStopped(y, s);
    if s in mid.stops.since {
      SameEvidence(mid, y, s, mid.stops.since[s], env.now);
      SameEvidence(mid, y, s, env.now, env.now);
    }
  }

  /** Both at once: the waits are settled, and they follow. */
  ghost predicate Step1(env: Env, x: Engine, y: Engine, s: Station) { Settled(y) && Follows(env, x, y, s) }

  lemma Told(env: Env, x: Engine, y: Engine, s: Station)
    requires SameNews(x, y) && y.stops == x.stops
    ensures Step1(env, x, Broadcast(env, y), s)
  {
    hide Broadcast, Settled, Follows;
    BroadcastFollows(env, x, y, s);
    FreshBroadcastSettles(env, y);
  }

  lemma Unchanged(env: Env, x: Engine, s: Station)
    requires Settled(x)
    ensures Step1(env, x, x, s)
  {
  }

  // ── Step by step ──────────────────────────────────────────────────

  lemma PutStep(env: Env, e: Engine, t: Station, c: Control, s: Station)
    requires Settled(e)
    ensures Step1(env, e, Broadcast(env, Put(e, t, c)), s) && Step1(env, e, e, s)
  {
    hide Broadcast, Settled, Follows, Step1;
    Told(env, e, Put(e, t, c), s);
    Unchanged(env, e, s);
  }

  lemma SlotsStep(env: Env, e: Engine, t: Station, a: Alliance, s: Station)
    requires Settled(e)
    ensures Step1(env, e, Join(env, e, t, a), s)
    ensures Step1(env, e, SwapAlliance(env, e, t), s)
    ensures Step1(env, e, Kick(env, e, t), s)
  {
    hide Broadcast, Settled, Step1, Put, Full;
    PutStep(env, e, t, e.st[t].(joined := true, alliance := Some(a)), s);
    PutStep(env, e, t, e.st[t].(alliance := Some(a)), s);
    PutStep(env, e, t, Left(e.st[t]), s);
    if e.st[t].alliance.Some? {
      PutStep(env, e, t, e.st[t].(alliance := Some(Other(e.st[t].alliance.value))), s);
    }
  }

  lemma PressStep(env: Env, e: Engine, t: Station, s: Station)
    requires Settled(e)
    ensures Step1(env, e, StationEStop(env, e, t), s)
    ensures Step1(env, e, StationAStop(env, e, t), s)
    ensures Step1(env, e, ClearAStop(env, e, t), s)
  {
    hide Broadcast, Settled, Step1, Put, CanAStop;
    PutStep(env, e, t, e.st[t].(eStop := true, enabled := false), s);
    PutStep(env, e, t, e.st[t].(aStop := true, enabled := false), s);
    PutStep(env, e, t, e.st[t].(aStop := false), s);
  }

  lemma ResetStep(env: Env, e: Engine, s: Station)
    requires Settled(e)
    ensures Step1(env, e, CreateMatch(env, e), s)
    ensures Step1(env, e, ClearMatch(env, e), s)
  {
    hide Broadcast, Settled, Step1;
    Unchanged(env, e, s);
    Told(env, e, SetUp(e), s);
    Told(env, e, Cleared(e), s);
  }

  lemma SetupStep(env: Env, e: Engine, request: Request, changed: set<Station>, s: Station)
    requires Settled(e)
    ensures Step1(env, e, CancelMatch(env, e), s)
    ensures Step1(env, e, UpdateConfig(env, e, request), s)
    ensures Step1(env, e, Reconcile(env, e, changed), s)
  {
    hide Broadcast, Settled, Step1, ConfigFor;
    Unchanged(env, e, s);
    Told(env, e, e.(st := Unjoined(e.st), phase := Idle), s);
    Told(env, e, e.(pending := ConfigFor(request)), s);
    Told(env, e, e.(st := map x: Station | x in e.st :: Dropped(e.st[x], x in changed)), s);
  }

  lemma CourseStep(env: Env, e: Engine, gates: bool, a: Alliance, s: Station)
    requires Settled(e)
    ensures Step1(env, e, StartMatch(env, e, gates), s)
    ensures Step1(env, e, AbortCountdown(env, e), s)
    ensures Step1(env, e, StopMatch(env, e), s)
    ensures Step1(env, e, PauseMatch(env, e), s)
    ensures Step1(env, e, ResumeMatch(env, e), s)
    ensures Step1(env, e, SetWinner(env, e, a), s)
    ensures Step1(env, e, Broadcast(env, e), s)
  {
    hide Broadcast, Settled, Step1, Starts, JoinedOf, Lined, StartWinner;
    Unchanged(env, e, s);
    Told(env, e, e, s);
    Told(env, e, Started(env, e), s);
    Told(env, e, Aborted(e), s);
    Told(env, e, EndNow(e), s);
    Told(env, e, e.(resuming := false), s);
    Told(env, e, OnHold(e), s);
    Told(env, e, e.(resuming := true), s);
    Told(env, e, e.(winner := Some(a)), s);
    Told(env, e, e.(winner := Some(a), clock := StartTick(e.clock, env.now)), s);
  }

  lemma FieldStep(env: Env, e: Engine, s: Station)
    ensures Step1(env, e, FieldEStop(env, e), s)
  {
    hide Broadcast, Step1;
    var down := e.(latch := true, resuming := false, st := DisabledAll(e.st));
    Told(env, e, down, s);
    Told(env, e, EndNow(down.(prePause := None)), s);
  }

  lemma LiftStep(env: Env, e: Engine, e': Engine, s: Station)
    requires SameNews(e, e') && e'.stops == e.stops
    ensures Step1(env, e, Broadcast(env, Lifting(e, e')), s)
  {
    hide Broadcast, Step1;
    Told(env, e, Lifting(e, e'), s);
  }

  lemma ClearStep(env: Env, e: Engine, t: Station, s: Station)
    requires Settled(e)
    ensures Step1(env, e, ClearFieldEStop(env, e), s)
    ensures Step1(env, e, ClearEStop(env, e, t), s)
    ensures Step1(env, e, ClearAllEStops(env, e), s)
  {
    hide Broadcast, Settled, Step1, Lifting;
    Unchanged(env, e, s);
    LiftStep(env, e, e.(latch := false), s);
    LiftStep(env, e, Put(e, t, e.st[t].(eStop := false)), s);
    LiftStep(env, e, e.(latch := false, st := map x: Station | x in e.st :: e.st[x].(eStop := false)), s);
  }

  lemma ResumeStep(env: Env, e: Engine, s: Station)
    requires Settled(e) && e.phase.Paused?
    ensures Step1(env, e, CompleteResume(env, e), s)
  {
    hide Broadcast, Settled, Step1, EnableParticipating;
    var phase := if e.prePause.Some? then e.prePause.value else Teleop;
    var mode := if phase.Auto? then AutoMode else TeleOpMode;
    var back := e.(resuming := false, phase := phase, prePause := None);
    LiveNews(env, back, mode);
    var live := EnableParticipating(env, back, mode);
    Told(env, e, live.(clock := StartTick(live.clock, env.now)), s);
  }

  lemma LiveNews(env: Env, e: Engine, mode: Mode)
    ensures SameNews(e, EnableParticipating(env, e, mode)) && EnableParticipating(env, e, mode).stops == e.stops
  {
  }

  // ── Steps that broadcast more than once ───────────────────────────

  lemma EveryoneFinishedStep(env: Env, x: Engine, e: Engine, s: Station)
    requires SameNews(x, e) && e.stops == x.stops
    ensures Step1(env, x, EndRunIfEveryoneFinished(env, e), s)
  {
    hide Broadcast, Step1, Takes, Finished;
    Told(env, x, RunOver(e), s);
    Told(env, x, e, s);
  }

  lemma LeaveStep(env: Env, e: Engine, t: Station, s: Station)
    requires Settled(e)
    ensures Step1(env, e, Leave(env, e, t), s)
  {
    hide Broadcast, Settled, Step1, EndRunIfEveryoneFinished, AnyJoined, Departed;
    Unchanged(env, e, s);
    DepartedNews(e, t);
    Told(env, e, Departed(e, t), s);
    Told(env, e, EndNow(Departed(e, t)), s);
    EveryoneFinishedStep(env, e, Departed(e, t), s);
  }

  lemma DepartedNews(e: Engine, t: Station)
    ensures SameNews(e, Departed(e, t)) && Departed(e, t).stops == e.stops
  {
  }

  lemma FinishStep(env: Env, x: Engine, e: Engine, a: Alliance, elapsed: real, cause: Disabler, s: Station)
    requires SameNews(x, e) && e.stops == x.stops
    ensures Step1(env, x, RecordFinish(env, e, a, elapsed, cause), s)
  {
    hide Step1, EndRunIfEveryoneFinished;
    EveryoneFinishedStep(env, x, Home(e, a, elapsed, cause), s);
  }

  lemma ChallengeStep(env: Env, e: Engine, a: Alliance, s: Station)
    requires Settled(e)
    ensures Step1(env, e, ChallengeFinish(env, e, a), s)
  {
    hide Settled, Step1, RecordFinish, CanFinish;
    Unchanged(env, e, s);
    FinishStep(env, e, e, a, RunElapsed(e), ByAdmin, s);
  }

  lemma LegNews(e: Engine, a: Alliance)
    ensures SameNews(e, LegDone(e, a)) && LegDone(e, a).stops == e.stops
  {
    hide Runner, RunElapsed;
  }

  lemma EnableNews(env: Env, e: Engine, t: Station)
    ensures SameNews(e, EnableStation(env, e, t, TeleOpMode)) && EnableStation(env, e, t, TeleOpMode).stops == e.stops
  {
  }

  lemma RelayStep(env: Env, e: Engine, a: Alliance, s: Station)
    requires Settled(e)
    ensures Step1(env, e, RelayAdvance(env, e, a), s)
  {
    hide Broadcast, Settled, Step1, RecordFinish, CanFinish, FmsHandoff, LegDone, EnableStation, Runner, RunElapsed;
    Unchanged(env, e, s);
    var home := LegDone(e, a);
    LegNews(e, a);
    FinishStep(env, e, home, a, RunElapsed(e), ByRelay, s);
    if Runner(home, a).Some? {
      EnableNews(env, home, Runner(home, a).value);
      Told(env, e, EnableStation(env, home, Runner(home, a).value, TeleOpMode), s);
    }
  }

  lemma HandoffStep(env: Env, e: Engine, t: Station, s: Station)
    requires Settled(e)
    ensures Step1(env, e, HandoffFromDisable(env, e, t), s)
  {
    hide Settled, Step1, RelayAdvance, FmsHandoff, Runner;
    Unchanged(env, e, s);
    if e.st[t].alliance.Some? {
      RelayStep(env, e, e.st[t].alliance.value, s);
    }
  }

  lemma TwoSteps(env: Env, x: Engine, mid: Engine, y: Engine, s: Station)
    requires Settled(x) && Step1(env, x, mid, s) && Step1(env, mid, y, s)
    requires OutStopped(x, s) ==> OutStopped(mid, s)
    ensures Step1(env, x, y, s)
  {
    hide Settled, Follows, OutStopped;
    ThenFollows(env, x, mid, y, s);
  }

  lemma DownHandoffStep(env: Env, e: Engine, t: Station, cause: Disabler, s: Station)
    requires Settled(e)
    ensures Step1(env, e, Broadcast(env, HeldDown(e, t, cause)), s)
    ensures Step1(env, e, HandoffFromDisable(env, Broadcast(env, HeldDown(e, t, cause)), t), s)
  {
    hide Broadcast, Settled, Follows, HandoffFromDisable, OutStopped, HeldDown;
    var down := Broadcast(env, HeldDown(e, t, cause));
    HeldDownStep(env, e, t, cause, s);
    HandoffStep(env, down, t, s);
    TwoSteps(env, e, down, HandoffFromDisable(env, down, t), s);
  }

  lemma HeldDownStep(env: Env, e: Engine, t: Station, cause: Disabler, s: Station)
    ensures Step1(env, e, Broadcast(env, HeldDown(e, t, cause)), s)
    ensures OutStopped(e, s) ==> OutStopped(Broadcast(env, HeldDown(e, t, cause)), s)
  {
    hide Broadcast, Step1;
    Told(env, e, HeldDown(e, t, cause), s);
    BroadcastsKeep(env);
  }

  lemma DisableStep(env: Env, e: Engine, t: Station, self: bool, s: Station)
    requires Settled(e)
    ensures Step1(env, e, Disable(env, e, t, self), s)
  {
    hide Broadcast, Settled, Step1, HandoffFromDisable, HeldDown;
    DownHandoffStep(env, e, t, if self then BySelf else ByAdmin, s);
  }

  lemma UndisableStep(env: Env, e: Engine, t: Station, byAdmin: bool, s: Station)
    requires Settled(e)
    ensures Step1(env, e, Undisable(env, e, t, byAdmin), s)
    ensures OutStopped(e, s) ==> OutStopped(Undisable(env, e, t, byAdmin), s)
  {
    hide Broadcast, Settled, Step1, Undisables, Revived;
    Unchanged(env, e, s);
    RevivedNews(env, e, t);
    Told(env, e, Revived(env, e, t), s);
    BroadcastsKeep(env);
    RevivedAt(env, e, t, s);
    RevivedStops(env, e, t, s);
  }

  lemma RevivedNews(env: Env, e: Engine, t: Station)
    ensures SameNews(e, Revived(env, e, t)) && Revived(env, e, t).stops == e.stops
  {
  }

  /** The state a status packet leaves before anything is broadcast. */
  function HeardFrom(e: Engine, t: Station, enabled: bool, now: int): Engine {
    var h := if enabled then e.heard.(enabledSeen := e.heard.enabledSeen + {t}) else e.heard;
    e.(heard := h.(heartbeat := h.heartbeat[t := now]))
  }

  lemma HeartbeatStep(env: Env, e: Engine, t: Station, enabled: bool, s: Station)
    requires Settled(e)
    ensures Step1(env, HeardFrom(e, t, enabled, env.now), NoteHeartbeat(env, e, t, enabled), s)
  {
    hide Broadcast, Settled, Step1, Undisable, OutStopped, Attached;
    var e' := HeardFrom(e, t, enabled, env.now);
    HeardSettled(e, t, enabled, env.now);
    Unchanged(env, e', s);
    Told(env, e', e', s);
    UndisableStep(env, e', t, false, s);
    StepSettles(env, e', Undisable(env, e', t, false), s);
    Told(env, Undisable(env, e', t, false), Undisable(env, e', t, false), s);
    TwoSteps(env, e', Undisable(env, e', t, false), Broadcast(env, Undisable(env, e', t, false)), s);
  }

  lemma HeardSettled(e: Engine, t: Station, enabled: bool, now: int)
    requires Settled(e)
    ensures Settled(HeardFrom(e, t, enabled, now))
  {
  }

  lemma StepSettles(env: Env, x: Engine, y: Engine, s: Station)
    requires Step1(env, x, y, s)
    ensures Settled(y)
  {
  }

  lemma HeartbeatStays(env: Env, e: Engine, t: Station, enabled: bool, s: Station)
    requires Settled(e)
    ensures OutStopped(HeardFrom(e, t, enabled, env.now), s) ==> OutStopped(NoteHeartbeat(env, e, t, enabled), s)
  {
    hide Broadcast, Undisable, Attached, Step1, Settled;
    HeardSettled(e, t, enabled, env.now);
    UndisableStep(env, HeardFrom(e, t, enabled, env.now), t, false, s);
    BroadcastsKeep(env);
  }

  lemma HonourStep(env: Env, e: Engine, t: Station, status: Status, s: Station)
    requires Settled(e)
    ensures Step1(env, e, HonourStatus(env, e, t, status), s)
  {
    hide Broadcast, Settled, Step1, HandoffFromDisable, HeldDown, DriverDisabled, ReportsAStop, ReportsEStop, Put;
    DownHandoffStep(env, e, t, ByDs, s);
    PutStep(env, e, t, e.st[t].(eStop := true, enabled := false), s);
    PutStep(env, e, t, e.st[t].(aStop := true, enabled := false), s);
  }

  lemma StatusStep(env: Env, e: Engine, t: Station, status: Status, s: Station)
    requires Settled(e)
    ensures Step1(env, HeardFrom(e, t, status.enabled, env.now), DsStatus(env, e, t, status), s)
  {
    hide Settled, Step1, NoteHeartbeat, HonourStatus, OutStopped, HeardFrom;
    var heard := HeardFrom(e, t, status.enabled, env.now);
    var e' := NoteHeartbeat(env, e, t, status.enabled);
    HeardSettled(e, t, status.enabled, env.now);
    HeartbeatStep(env, e, t, status.enabled, s);
    StepSettles(env, heard, e', s);
    HeartbeatStays(env, e, t, status.enabled, s);
    HonourStep(env, e', t, status, s);
    TwoSteps(env, heard, e', DsStatus(env, e, t, status), s);
  }

  ghost predicate Quiet(x: Engine, y: Engine) { SameNews(x, y) && y.stops == x.stops }

  lemma LiveQuiet(env: Env, x: Engine, e: Engine, mode: Mode)
    requires Quiet(x, e)
    ensures Quiet(x, EnableParticipating(env, e, mode))
  {
  }

  lemma TeleopQuiet(env: Env, x: Engine, e: Engine)
    requires Quiet(x, e) && e.config.Some?
    ensures Quiet(x, EnterTeleop(env, e))
  {
  }

  lemma ExpiredQuiet(env: Env, e: Engine, pick: Alliance)
    requires e.config.Some?
    ensures Quiet(e, PhaseExpired(env, e, pick))
  {
    hide EnableParticipating, EnterTeleop, AutoWinner, Quiet;
    var c := e.config.value;
    var held := e.(phase := AutoPause, st := DisabledAll(e.st), clock := Expired(e.clock, c.pauseDuration));
    HeldQuiet(e, held);
    HeldQuiet(e, held.(clock := StopTick(held.clock)));
    HeldQuiet(e, EndByTimer(e));
    HeldQuiet(e, e);
    var live := e.(runStartedAt := Some(e.clock.total), phase := Auto, clock := Expired(e.clock, c.autoDuration));
    HeldQuiet(e, live);
    LiveQuiet(env, e, live, AutoMode);
    HeldQuiet(e, e.(runStartedAt := Some(e.clock.total)));
    TeleopQuiet(env, e, e.(runStartedAt := Some(e.clock.total)));
    HeldQuiet(e, e.(winner := AutoWinner(c, e.winner, pick)));
    TeleopQuiet(env, e, e.(winner := AutoWinner(c, e.winner, pick)));
  }

  lemma HeldQuiet(e: Engine, e': Engine)
    requires e'.heard == e.heard && e'.stops == e.stops
    ensures Quiet(e, e')
  {
  }

  lemma ReleasedStep(env: Env, x: Engine, e: Engine, s: Station)
    requires Settled(x) && SameNews(x, e) && e.stops == x.stops && e.st == x.st && e.latch == x.latch
    ensures Step1(env, x, Broadcast(env, Broadcast(env, Released(e))), s)
  {
    hide Broadcast, Settled, Step1;
    BroadcastsKeep(env);
    Told(env, x, Released(e), s);
    var mid := Broadcast(env, Released(e));
    StepSettles(env, x, mid, s);
    Told(env, mid, mid, s);
    TwoSteps(env, x, mid, Broadcast(env, mid), s);
  }

  lemma TickStep(env: Env, e: Engine, pick: Alliance, s: Station)
    requires Settled(e)
    ensures Step1(env, e, Tick(env, e, pick), s)
  {
    hide Broadcast, Settled, Step1, PhaseExpired, Elapsed;
    var late := Advanced(e, env.now);
    if late.config.Some? {
      ExpiredQuiet(env, late, pick);
      Told(env, e, PhaseExpired(env, late, pick), s);
      ReleasedStep(env, e, late, s);
    }
    Told(env, e, late, s);
    Told(env, e, late.(phase := Endgame), s);
  }

  // ── What the packet capture sees ──────────────────────────────────

  /** How a step leaves the wait of station `s`: it stays, or there is
      evidence, and sight of the DS commanding Enabled always puts it back. */
  ghost predicate WaitStep(env: Env, e: Engine, op: Op, e': Engine, s: Station) {
    && Begins(env, e, e', s)
    && (s in e.stops.since && OutStopped(e', s) ==>
          && s in e'.stops.since && e'.stops.since[s] == e.stops.since[s]
          && (s !in e'.stops.waits ==>
                || (s !in e.stops.waits && op != ControlSeen(s, Some(true)))
                || DsStopped(e', s, e'.stops.since[s], env.now)))
  }

  /** What is kept of a capture before anything else happens. */
  function Captured(e: Engine, t: Station, enabled: Option<bool>, now: int): Engine {
    e.(heard := e.heard.(control := e.heard.control[t := DsControl(now, enabled)]))
  }

  lemma SeenEnabledWaits(env: Env, e: Engine, t: Station, s: Station)
    requires Settled(e) && t in e.stops.since
    ensures var heard := Captured(e, t, Some(true), env.now);
            var e' := Broadcast(env, heard.(stops := heard.stops.(waits := heard.stops.waits + {t})));
            WaitStep(env, e, ControlSeen(t, Some(true)), e', s)
  {
    hide Broadcast;
    var heard := Captured(e, t, Some(true), env.now);
    var waiting := heard.(stops := heard.stops.(waits := heard.stops.waits + {t}));
    BroadcastAt(env, waiting, s);
    if s in e.stops.since && s != t {
      SameEvidence(waiting, Broadcast(env, waiting), s, e.stops.since[s], env.now);
    }
  }

  lemma SeenDisabledStep(env: Env, e: Engine, t: Station, s: Station)
    requires Settled(e)
    ensures WaitStep(env, e, ControlSeen(t, Some(false)), Broadcast(env, Captured(e, t, Some(false), env.now)), s)
  {
    hide Broadcast, DsStopped;
    var heard := Captured(e, t, Some(false), env.now);
    BroadcastAt(env, heard, s);
    if s in e.stops.since {
      SameEvidence(heard, Broadcast(env, heard), s, e.stops.since[s], env.now);
    }
  }

  /** Sight of a control packet that changes nothing: the station of one that
      commands Enabled waits already, or has no stop. */
  lemma CapturedStep(env: Env, e: Engine, t: Station, enabled: Option<bool>, s: Station)
    requires Settled(e) && (enabled == Some(true) && t in e.stops.since ==> t in e.stops.waits)
    ensures WaitStep(env, e, ControlSeen(t, enabled), Captured(e, t, enabled, env.now), s)
    ensures Settled(Captured(e, t, enabled, env.now))
  {
  }

  lemma ControlStep(env: Env, e: Engine, t: Station, enabled: Option<bool>, s: Station)
    requires Settled(e)
    ensures Settled(NoteControl(env, e, t, enabled))
    ensures WaitStep(env, e, ControlSeen(t, enabled), NoteControl(env, e, t, enabled), s)
  {
    hide Broadcast, WaitStep, Settled;
    var heard := Captured(e, t, enabled, env.now);
    if enabled == Some(true) && t in e.stops.since && t !in e.stops.waits {
      SeenEnabledWaits(env, e, t, s);
      FreshBroadcastSettles(env, heard.(stops := heard.stops.(waits := heard.stops.waits + {t})));
    } else if enabled == Some(false) && t in e.stops.waits {
      SeenDisabledStep(env, e, t, s);
      FreshBroadcastSettles(env, heard);
    } else {
      CapturedStep(env, e, t, enabled, s);
    }
  }

  // ── Every step ────────────────────────────────────────────────────

  lemma FromStep1(env: Env, e: Engine, x: Engine, op: Op, e': Engine, s: Station)
    requires Step1(env, x, e', s) && x.stops == e.stops && !op.ControlSeen?
    ensures Settled(e') && WaitStep(env, e, op, e', s)
  {
  }

  predicate OfMatch(op: Op) {
    op.DoLeave? || op.DoStart? || op.DoAbort? || op.DoStop? || op.DoPause? || op.DoResume? || op.ResumeTimer?
    || op.DoWinner? || op.DoFinish? || op.DoRelay? || op.TickTimer? || op.OtherBroadcast?
  }

  lemma MatchStep(env: Env, e: Engine, op: Op, s: Station)
    requires Settled(e) && Possible(e, op) && OfMatch(op) && (e.resuming ==> e.phase.Paused?)
    ensures Step1(env, e, Next(env, e, op), s)
  {
    hide Settled, Step1, Leave, StartMatch, AbortCountdown, StopMatch, PauseMatch, ResumeMatch, CompleteResume, SetWinner,
      ChallengeFinish, RelayAdvance, Tick, Broadcast;
    match op
    case DoLeave(t) => LeaveStep(env, e, t, s);
    case DoStart(gates) => CourseStep(env, e, gates, Red, s);
    case DoAbort => CourseStep(env, e, true, Red, s);
    case DoStop => CourseStep(env, e, true, Red, s);
    case DoPause => CourseStep(env, e, true, Red, s);
    case DoResume => CourseStep(env, e, true, Red, s);
    case ResumeTimer => ResumeStep(env, e, s);
    case DoWinner(a) => CourseStep(env, e, true, a, s);
    case DoFinish(a) => ChallengeStep(env, e, a, s);
    case DoRelay(a) => RelayStep(env, e, a, s);
    case TickTimer(pick) => TickStep(env, e, pick, s);
    case OtherBroadcast => CourseStep(env, e, true, Red, s);
  }

  lemma FieldOrSetupStep(env: Env, e: Engine, op: Op, s: Station)
    requires Settled(e) && !OfMatch(op) && !op.StatusFrom? && !op.ControlSeen?
    ensures Step1(env, e, Next(env, e, op), s)
  {
    hide Settled, Step1, CreateMatch, CancelMatch, ClearMatch, UpdateConfig, Join, SwapAlliance, Kick, Reconcile, FieldEStop,
      ClearFieldEStop, StationEStop, StationAStop, ClearAStop, ClearEStop, ClearAllEStops, Disable, Undisable;
    match op
    case DoCreate => ResetStep(env, e, s);
    case DoCancel => SetupStep(env, e, OfficialMatch(false, ByScores), {}, s);
    case DoClear => ResetStep(env, e, s);
    case DoConfig(request) => SetupStep(env, e, request, {}, s);
    case DoJoin(t, a) => SlotsStep(env, e, t, a, s);
    case DoSwap(t) => SlotsStep(env, e, t, Red, s);
    case DoKick(t) => SlotsStep(env, e, t, Red, s);
    case DoReconcile(changed) => SetupStep(env, e, OfficialMatch(false, ByScores), changed, s);
    case DoFieldEStop => FieldStep(env, e, s);
    case DoClearField => ClearStep(env, e, s, s);
    case DoEStop(t) => PressStep(env, e, t, s);
    case DoAStop(t) => PressStep(env, e, t, s);
    case DoClearAStop(t) => PressStep(env, e, t, s);
    case DoClearEStop(t) => ClearStep(env, e, t, s);
    case DoClearAll => ClearStep(env, e, s, s);
    case DoDisable(t, self) => DisableStep(env, e, t, self, s);
    case DoUndisable(t, byAdmin) => UndisableStep(env, e, t, byAdmin, s);
  }

  lemma NextSettles(env: Env, e: Engine, op: Op, s: Station)
    requires Settled(e) && Possible(e, op) && (e.resuming ==> e.phase.Paused?)
    ensures Settled(Next(env, e, op)) && WaitStep(env, e, op, Next(env, e, op), s)
  {
    hide Settled, Step1, WaitStep, DsStatus, NoteControl, Possible, OfMatch, HeardFrom;
    match op
    case StatusFrom(t, status) =>
      StatusStep(env, e, t, status, s);
      HeardStops(e, t, status.enabled, env.now);
      FromStep1(env, e, HeardFrom(e, t, status.enabled, env.now), op, Next(env, e, op), s);
    case ControlSeen(t, enabled) => ControlStep(env, e, t, enabled, s);
    case _ => AnyOtherStep(env, e, op, s);
  }

  lemma HeardStops(e: Engine, t: Station, enabled: bool, now: int)
    ensures HeardFrom(e, t, enabled, now).stops == e.stops
  {
  }

  lemma AnyOtherStep(env: Env, e: Engine, op: Op, s: Station)
    requires Settled(e) && Possible(e, op) && (e.resuming ==> e.phase.Paused?) && !op.StatusFrom? && !op.ControlSeen?
    ensures Settled(Next(env, e, op)) && WaitStep(env, e, op, Next(env, e, op), s)
  {
    hide Next, Settled, Step1, WaitStep, Possible;
    if OfMatch(op) {
      MatchStep(env, e, op, s);
    } else {
      FieldOrSetupStep(env, e, op, s);
    }
    FromStep1(env, e, e, op, Next(env, e, op), s);
  }

  /** From when on silence counts is set at the start, and never again. */
  lemma SilenceStays(env: Env, e: Engine, op: Op)
    requires Settled(e) && Possible(e, op) && (e.resuming ==> e.phase.Paused?)
    ensures Next(env, e, op).stops.silenceFrom == e.stops.silenceFrom
  {
    hide Settled, Next, DsStatus, NoteControl, Possible, OfMatch, HeardFrom, Goes, Begins;
    match op
    case StatusFrom(t, status) =>
      StatusStep(env, e, t, status, t);
      HeardStops(e, t, status.enabled, env.now);
      NextStatus(env, e, t, status);
    case ControlSeen(t, enabled) => ControlSilence(env, e, t, enabled);
    case _ =>
      if OfMatch(op) {
        MatchStep(env, e, op, Slot1);
      } else {
        FieldOrSetupStep(env, e, op, Slot1);
      }
  }

  lemma NextStatus(env: Env, e: Engine, t: Station, status: Status)
    ensures Next(env, e, StatusFrom(t, status)) == DsStatus(env, e, t, status)
  {
    hide DsStatus;
  }

  lemma ControlSilence(env: Env, e: Engine, t: Station, enabled: Option<bool>)
    ensures Next(env, e, ControlSeen(t, enabled)).stops.silenceFrom == e.stops.silenceFrom
  {
    hide DsStopped, OutStopped;
  }

  // ── Whole runs ────────────────────────────────────────────────────

  /** In every run, after every step: the stations waiting are among those
      e-stopped out of a match. */
  lemma {:induction false} RunSettles(e: Engine, steps: seq<Step>)
    requires Settled(e) && Safe(e) && Runs(e, steps)
    ensures Settled(Run(e, steps))
    ensures forall s: Station | s in Run(e, steps).stops.waits :: !Run(e, steps).st[s].joined && EStopped(Run(e, steps), s)
  {
    hide Next, Possible, Safe;
    if steps != [] {
      var before := steps[..|steps| - 1];
      RunSettles(e, before);
      RunSafe(e, before);
      OnlyResumesPaused(Run(e, before));
      NextSettles(steps[|steps| - 1].env, Run(e, before), steps[|steps| - 1].op, Slot1);
    }
  }

  lemma OnlyResumesPaused(e: Engine)
    requires Safe(e)
    ensures e.resuming ==> e.phase.Paused?
  {
  }

  /** After step `k` there was evidence that the DS of `s` had stopped its
      robot, and no packet commanding Enabled was seen since. */
  ghost predicate EvidenceAt(e: Engine, steps: seq<Step>, s: Station, since: int, k: nat) {
    && 1 <= k <= |steps|
    && DsStopped(Run(e, steps[..k]), s, since, steps[k - 1].env.now)
    && forall j: nat | k <= j < |steps| :: steps[j].op != ControlSeen(s, Some(true))
  }

  /** `s` is pressed in the first step, with a team on it, and stays stopped
      out of a match to the end. */
  ghost predicate PressedFirst(e: Engine, steps: seq<Step>, s: Station) {
    && steps != [] && s !in e.stops.since && s in steps[0].env.teamed
    && forall i: nat | 1 <= i <= |steps| :: OutStopped(Run(e, steps[..i]), s)
  }

  lemma PressBegins(env: Env, e: Engine, op: Op, s: Station)
    requires Settled(e) && Possible(e, op) && (e.resuming ==> e.phase.Paused?)
    requires s !in e.stops.since && s in env.teamed && OutStopped(Next(env, e, op), s)
    ensures var e' := Next(env, e, op);
            && s in e'.stops.since && e'.stops.since[s] == env.now
            && (s !in e'.stops.waits ==> DsStopped(e', s, env.now, env.now))
  {
    hide Next, Possible, DsStopped, OutStopped;
    NextSettles(env, e, op, s);
    SinceIff(Next(env, e, op), s);
  }

  lemma SinceIff(e: Engine, s: Station)
    requires Settled(e)
    ensures s in e.stops.since <==> OutStopped(e, s)
  {
  }

  /** As long as the stop stands, either it waits still, or there has been
      evidence that holds to this day. */
  lemma {:induction false} WaitsOrEvidence(e: Engine, steps: seq<Step>, s: Station)
    requires Settled(e) && Safe(e) && Runs(e, steps) && PressedFirst(e, steps, s)
    ensures var r := Run(e, steps);
            && s in r.stops.since && r.stops.since[s] == steps[0].env.now
            && (s in r.stops.waits || exists k: nat :: EvidenceAt(e, steps, s, steps[0].env.now, k))
  {
    hide Next, Possible, Safe, Settled, DsStopped, OutStopped, WaitStep, EvidenceAt;
    var n := |steps| - 1;
    var before := steps[..n];
    var last := steps[n];
    var mid := Run(e, before);
    assert steps[..n + 1] == steps;
    RunSettles(e, before);
    RunSafe(e, before);
    OnlyResumesPaused(mid);
    if n == 0 {
      PressBegins(last.env, e, last.op, s);
      NowEvidence(e, steps, s, steps[0].env.now);
    } else {
      forall i: nat | 1 <= i <= n ensures OutStopped(Run(e, before[..i]), s) {
        assert before[..i] == steps[..i];
      }
      WaitsOrEvidence(e, before, s);
      NextSettles(last.env, mid, last.op, s);
      WaitGoes(last.env, mid, last.op, s);
      if DsStopped(Run(e, steps), s, steps[0].env.now, last.env.now) {
        NowEvidence(e, steps, s, steps[0].env.now);
      } else if s !in Run(e, steps).stops.waits {
        var k: nat :| EvidenceAt(e, before, s, steps[0].env.now, k);
        StillEvidence(e, steps, s, steps[0].env.now, k);
      }
    }
  }

  lemma NowEvidence(e: Engine, steps: seq<Step>, s: Station, since: int)
    requires steps != []
    ensures DsStopped(Run(e, steps), s, since, steps[|steps| - 1].env.now) ==> EvidenceAt(e, steps, s, since, |steps|)
  {
    hide DsStopped, Run;
    assert steps[..|steps|] == steps;
  }

  lemma StillEvidence(e: Engine, steps: seq<Step>, s: Station, since: int, k: nat)
    requires steps != [] && steps[|steps| - 1].op != ControlSeen(s, Some(true))
    requires EvidenceAt(e, steps[..|steps| - 1], s, since, k)
    ensures EvidenceAt(e, steps, s, since, k)
  {
    hide DsStopped, Run;
    assert steps[..|steps| - 1][..k] == steps[..k];
  }

  lemma WaitGoes(env: Env, e: Engine, op: Op, s: Station)
    requires WaitStep(env, e, op, Next(env, e, op), s) && s in e.stops.since && OutStopped(Next(env, e, op), s)
    ensures var e' := Next(env, e, op);
            && s in e'.stops.since && e'.stops.since[s] == e.stops.since[s]
            && (s !in e'.stops.waits ==>
                  || (s !in e.stops.waits && op != ControlSeen(s, Some(true)))
                  || DsStopped(e', s, e.stops.since[s], env.now))
  {
  }

  /** A Clear that lifts the e-stop of a robot out of a match, pressed with a
      team on the slot, comes after its Driver Station was seen to stop, with
      no packet commanding Enabled seen since. */
  lemma ClearNeedsEvidence(e: Engine, steps: seq<Step>, s: Station, env: Env, op: Op)
    requires Settled(e) && Safe(e) && Runs(e, steps) && PressedFirst(e, steps, s)
    requires op.DoClearEStop? || op.DoClearField? || op.DoClearAll?
    requires !EStopped(Next(env, Run(e, steps), op), s)
    ensures exists k: nat :: EvidenceAt(e, steps, s, steps[0].env.now, k)
  {
    hide Next, Run, Safe, Settled, EvidenceAt, EStopped;
    WaitsOrEvidence(e, steps, s);
    assert OutStopped(Run(e, steps), s) by {
      assert steps[..|steps|] == steps;
    }
    if s in Run(e, steps).stops.waits {
      WaitingIsNotCleared(env, Run(e, steps), op, s);
    }
  }

  lemma WaitingIsNotCleared(env: Env, e: Engine, op: Op, s: Station)
    requires OutStopped(e, s) && s in e.stops.waits
    requires op.DoClearEStop? || op.DoClearField? || op.DoClearAll?
    ensures EStopped(Next(env, e, op), s)
  {
    hide Broadcast;
    BroadcastsKeep(env);
  }

  /** Setting up or clearing a match lifts a robot's own e-stop whether its
      Driver Station has stopped or not. */
  lemma ResetBypassesWait(env: Env, e: Engine, s: Station)
    requires !e.latch
    ensures e.phase.Idle? || e.phase.PostMatch? ==> !EStopped(CreateMatch(env, e), s)
    ensures e.phase.PostMatch? ==> !EStopped(ClearMatch(env, e), s)
  {
  }
}
