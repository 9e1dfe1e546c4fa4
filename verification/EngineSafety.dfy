/** When a robot may be enabled, over every run of the match engine. */
module EngineSafety {
  import opened Field
  import opened EngineState

  // ── The enable rule ───────────────────────────────────────────────

  /** The mode robots run in, by the phase of the match. */
  function ModeIn(phase: Phase): Mode { if phase.Auto? then AutoMode else TeleOpMode }

  /** Everything that has to hold for station `s`, in state `c`, to be enabled,
      but for the mode it runs in. */
  ghost predicate MayRunBut(e: Engine, s: Station, c: Control) {
    && Running(e.phase) && c.joined && !e.latch && !c.eStop && !c.aStop
    && c.disabledBy.None? && c.alliance.Some? && !Finished(e, c.alliance)
    && (FmsHandoff(e.config) ==> Runner(e, c.alliance.value) == Some(s))
  }

  ghost predicate MayRunAs(e: Engine, s: Station, c: Control) { MayRunBut(e, s, c) && c.mode == ModeIn(e.phase) }

  ghost predicate MayRun(e: Engine, s: Station) { MayRunAs(e, s, e.st[s]) }

  ghost predicate EnabledOnlyIf(e: Engine) { forall s: Station | e.st[s].enabled :: MayRun(e, s) }

  ghost predicate AllDown(e: Engine) { forall s: Station :: !e.st[s].enabled }

  ghost predicate JoinedToAlliance(e: Engine) { forall s: Station | e.st[s].joined :: e.st[s].alliance.Some? }

  /** The running order holds nobody of the other alliance, and nobody twice. */
  ghost predicate LegsKept(e: Engine) {
    && (forall s: Station, a: Alliance | s in e.order[a] && e.st[s].joined :: e.st[s].alliance == Some(a))
    && (forall a: Alliance :: Distinct(e.order[a]))
  }

  ghost predicate Distinct(slots: seq<Station>) {
    forall i: nat, j: nat | i < j < |slots| :: slots[i] != slots[j]
  }

  ghost predicate PhasesOk(e: Engine) {
    && (e.latch ==> !Active(e.phase))
    && (Active(e.phase) ==> e.config.Some?)
    && (e.phase.Paused? ==> e.prePause.Some?)
    && (e.prePause.Some? ==> Running(e.prePause.value))
    && (e.resuming ==> e.phase.Paused?)
    && RelaysSkipAuto(e)
  }

  /** No autonomous period in a match whose robots take turns. */
  ghost predicate RelaysSkipAuto(e: Engine) {
    && (FmsHandoff(Some(e.pending)) ==> e.pending.skipAuto)
    && (FmsHandoff(e.config) && Active(e.phase) ==>
          e.config.value.skipAuto && !e.phase.Auto? && (e.phase.Paused? ==> e.prePause != Some(Auto)))
  }

  ghost predicate Safe(e: Engine) {
    && EnabledOnlyIf(e) && JoinedToAlliance(e) && PhasesOk(e)
    && (Active(e.phase) ==> LegsKept(e))
  }

  /** What a freshly built engine holds, or one that has taken up the stops of
      the run before it. */
  ghost predicate Fresh(e: Engine) {
    && e.phase.Idle? && e.config.None? && e.prePause.None? && !e.resuming
    && e.clock == Clock(0.0, 0.0, e.clock.lastTick, false, 0, 0.0, 0, 0.0)
    && e.pending == OFFICIAL && e.winner.None? && e.runStartedAt.None?
    && (forall s: Station :: e.st[s] == FRESH.(eStop := e.st[s].eStop))
    && (forall a: Alliance :: e.tally[a] == NO_TALLY && e.order[a] == [])
    && e.stops.since == map[] && e.stops.waits == {}
  }

  lemma FreshSafe(e: Engine)
    requires Fresh(e)
    ensures Safe(e)
  {
  }

  // ── Carrying the rule from one state to the next ──────────────────

  ghost predicate SameRun(e: Engine, e': Engine) {
    e'.phase == e.phase && e'.latch == e.latch && e'.config == e.config && e'.tally == e.tally && e'.order == e.order
  }

  ghost predicate SameRoster(e: Engine, e': Engine) {
    e'.order == e.order && forall s: Station :: e'.st[s].joined == e.st[s].joined && e'.st[s].alliance == e.st[s].alliance
  }

  /** Stations only leave. */
  ghost predicate OnlyLeaves(e: Engine, e': Engine) {
    e'.order == e.order && forall s: Station :: e'.st[s].joined ==> e.st[s].joined && e'.st[s].alliance == e.st[s].alliance
  }

  lemma SameRule(e: Engine, e': Engine, s: Station, c: Control)
    requires SameRun(e, e')
    ensures MayRunAs(e', s, c) == MayRunAs(e, s, c)
  {
  }

  lemma RosterKept(e: Engine, e': Engine)
    requires OnlyLeaves(e, e')
    ensures JoinedToAlliance(e) ==> JoinedToAlliance(e')
    ensures LegsKept(e) ==> LegsKept(e')
  {
  }

  /** A step within the run: each robot still enabled is as it was, or may
      run on its own account. */
  lemma Carried(e: Engine, e': Engine)
    requires Safe(e) && SameRun(e, e') && OnlyLeaves(e, e') && PhasesOk(e')
    requires forall s: Station | e'.st[s].enabled :: e'.st[s] == e.st[s] || MayRun(e', s)
    ensures Safe(e')
  {
  }

  lemma Downed(e: Engine)
    requires AllDown(e) && JoinedToAlliance(e) && PhasesOk(e) && (Active(e.phase) ==> LegsKept(e))
    ensures Safe(e)
  {
  }

  /** One station changes, and may run in its new state or goes down. */
  lemma PutCarried(e: Engine, e': Engine, s: Station, c: Control)
    requires Safe(e) && SameRun(e, e') && PhasesOk(e') && e'.st == e.st[s := c]
    requires c.joined ==> e.st[s].joined && c.alliance == e.st[s].alliance
    requires c.enabled ==> c == e.st[s] || MayRunAs(e, s, c)
    ensures Safe(e')
  {
    hide MayRunAs, Safe, PhasesOk;
    SameRule(e, e', s, c);
    Carried(e, e');
  }

  lemma BroadcastSafe(env: Env, e: Engine)
    requires Safe(e)
    ensures Safe(Broadcast(env, e))
  {
  }

  lemma NotRunning(e: Engine)
    requires Safe(e) && !Running(e.phase)
    ensures AllDown(e)
  {
  }

  // ── Enabling ──────────────────────────────────────────────────────

  predicate TurnOf(e: Engine, s: Station) {
    e.st[s].joined ==>
      && !Finished(e, e.st[s].alliance)
      && (FmsHandoff(e.config) ==> e.st[s].alliance.Some? && Runner(e, e.st[s].alliance.value) == Some(s))
  }

  lemma EnabledMayRun(env: Env, e: Engine, s: Station, mode: Mode)
    requires e.st[s].enabled ==> MayRun(e, s)
    requires e.st[s].joined ==> e.st[s].alliance.Some?
    requires Running(e.phase) && !e.latch && TurnOf(e, s) && mode == ModeIn(e.phase)
    ensures var c := Enabled(env, e, s, mode);
            && (c.enabled ==> c == e.st[s] || MayRunAs(e, s, c))
            && c.joined == e.st[s].joined && c.alliance == e.st[s].alliance
  {
  }

  /** Enabling a station whose turn it is keeps the rule, with everyone else
      as they were. */
  lemma EnableStationSafe(env: Env, e: Engine, s: Station, mode: Mode)
    requires Safe(e) && Running(e.phase) && TurnOf(e, s) && mode == ModeIn(e.phase)
    ensures Safe(EnableStation(env, e, s, mode))
  {
    EnabledMayRun(env, e, s, mode);
    hide Enabled, MayEnable, MayRunAs, TurnOf, MarkFmsEnabled, Finished, Runner, FmsHandoff;
    PutCarried(e, EnableStation(env, e, s, mode), s, Enabled(env, e, s, mode));
  }

  lemma ParticipatingMayRun(env: Env, e: Engine, s: Station, mode: Mode)
    requires e.st[s].enabled ==> MayRunBut(e, s, e.st[s])
    requires mode == ModeIn(e.phase)
    requires e.st[s].joined ==> e.st[s].alliance.Some?
    requires LegsKept(e) && Running(e.phase) && !e.latch
    requires Participating(env, e, s, mode).enabled
    ensures MayRunAs(e, s, Participating(env, e, s, mode))
  {
  }

  lemma ParticipatingKeeps(env: Env, e: Engine, s: Station, mode: Mode)
    ensures var c := Participating(env, e, s, mode);
            c.joined == e.st[s].joined && c.alliance == e.st[s].alliance && c.eStop == e.st[s].eStop
  {
  }

  /** The rule but for the modes, which a new phase has yet to set. */
  ghost predicate SafeBut(e: Engine) {
    && (forall s: Station | e.st[s].enabled :: MayRunBut(e, s, e.st[s]))
    && JoinedToAlliance(e) && PhasesOk(e) && (Active(e.phase) ==> LegsKept(e))
  }

  lemma ReleaseSafe(e: Engine, mode: Mode)
    requires SafeBut(e)
    ensures SafeBut(AStopsReleased(e, mode))
  {
  }

  lemma ParticipatingAt(env: Env, e: Engine, s: Station, mode: Mode)
    ensures EnableParticipating(env, e, mode).st[s] == Participating(env, AStopsReleased(e, mode), s, mode)
  {
  }

  lemma ParticipatingRest(env: Env, e: Engine, mode: Mode)
    ensures var e' := EnableParticipating(env, e, mode);
            e' == e.(st := e'.st, heard := e'.heard) && SameRun(AStopsReleased(e, mode), e')
  {
  }

  lemma LiveMayRun(env: Env, e: Engine, s: Station, mode: Mode)
    requires SafeBut(e) && Running(e.phase) && mode == ModeIn(e.phase)
    ensures var c := Participating(env, AStopsReleased(e, mode), s, mode);
            && (c.enabled ==> MayRunAs(AStopsReleased(e, mode), s, c))
            && c.joined == e.st[s].joined && c.alliance == e.st[s].alliance
  {
    hide Participating, LegsKept, MayRunBut;
    var r := AStopsReleased(e, mode);
    ReleaseSafe(e, mode);
    assert r.st[s].enabled ==> MayRunBut(r, s, r.st[s]);
    ParticipatingKeeps(env, r, s, mode);
    if Participating(env, r, s, mode).enabled {
      ParticipatingMayRun(env, r, s, mode);
    }
  }

  lemma EnableParticipatingSafe(env: Env, e: Engine, mode: Mode)
    requires SafeBut(e) && Running(e.phase) && mode == ModeIn(e.phase)
    ensures Safe(EnableParticipating(env, e, mode))
    ensures SameRoster(e, EnableParticipating(env, e, mode))
  {
    hide EnableParticipating, AStopsReleased, Participating, MayRunAs, LegsKept;
    var e' := EnableParticipating(env, e, mode);
    ParticipatingRest(env, e, mode);
    forall s: Station
      ensures e'.st[s].enabled ==> MayRun(e', s)
      ensures e'.st[s].joined == e.st[s].joined && e'.st[s].alliance == e.st[s].alliance {
      LiveMayRun(env, e, s, mode);
      ParticipatingAt(env, e, s, mode);
      SameRule(AStopsReleased(e, mode), e', s, e'.st[s]);
    }
    RosterKept(e, e');
  }

  /** Everyone goes live into a new phase of the match, all down before it. */
  lemma GoLiveSafe(env: Env, e: Engine, mode: Mode)
    requires AllDown(e) && JoinedToAlliance(e) && LegsKept(e) && PhasesOk(e) && Running(e.phase)
    requires mode == ModeIn(e.phase)
    ensures Safe(EnableParticipating(env, e, mode))
  {
    Downed(e);
    EnableParticipatingSafe(env, e, mode);
  }

  // ── Setting a match up ────────────────────────────────────────────

  /** The roster changes, out of a match, with every robot down. */
  lemma SetupSafe(env: Env, e: Engine, e': Engine)
    requires Safe(e) && !Running(e.phase) && !Active(e'.phase)
    requires forall s: Station :: e'.st[s].enabled ==> e.st[s].enabled
    requires JoinedToAlliance(e') && RelaysSkipAuto(e')
    requires e'.prePause == e.prePause && e'.resuming == e.resuming && (e.phase.Paused? ==> !e.resuming)
    ensures Safe(Broadcast(env, e'))
  {
  }

  lemma CreateSafe(env: Env, e: Engine)
    requires Safe(e)
    ensures Safe(CreateMatch(env, e))
  {
  }

  lemma CancelSafe(env: Env, e: Engine)
    requires Safe(e)
    ensures Safe(CancelMatch(env, e))
  {
    if e.phase.Created? {
      SetupSafe(env, e, e.(st := Unjoined(e.st), phase := Idle));
    }
  }

  lemma ClearSafe(env: Env, e: Engine)
    requires Safe(e)
    ensures Safe(ClearMatch(env, e))
  {
    hide MayRunAs, LegsKept, Broadcast;
    if e.phase.PostMatch? {
      SetupSafe(env, e, Cleared(e));
    }
  }

  lemma PutSafe(env: Env, e: Engine, s: Station, c: Control)
    requires Safe(e) && e.phase.Created?
    requires c.enabled == e.st[s].enabled && (c.joined ==> c.alliance.Some?)
    ensures Safe(Broadcast(env, Put(e, s, c)))
  {
    hide Broadcast, MayRunAs;
    SetupSafe(env, e, Put(e, s, c));
  }

  lemma JoinSafe(env: Env, e: Engine, s: Station, a: Alliance)
    requires Safe(e)
    ensures Safe(Join(env, e, s, a))
  {
    hide Full, Broadcast, Safe, Put;
    if e.phase.Created? {
      PutSafe(env, e, s, e.st[s].(joined := true, alliance := Some(a)));
      if e.st[s].joined {
        PutSafe(env, e, s, e.st[s].(alliance := Some(a)));
      }
    }
  }

  lemma SwapSafe(env: Env, e: Engine, s: Station)
    requires Safe(e)
    ensures Safe(SwapAlliance(env, e, s))
  {
    hide Full, Broadcast, Safe, Put;
    if e.phase.Created? && e.st[s].alliance.Some? {
      PutSafe(env, e, s, e.st[s].(alliance := Some(Other(e.st[s].alliance.value))));
    }
  }

  lemma KickSafe(env: Env, e: Engine, s: Station)
    requires Safe(e)
    ensures Safe(Kick(env, e, s))
  {
    hide Broadcast, Safe, Put;
    if e.phase.Created? {
      PutSafe(env, e, s, Left(e.st[s]));
    }
  }

  lemma ReconcileSafe(env: Env, e: Engine, changed: set<Station>)
    requires Safe(e)
    ensures Safe(Reconcile(env, e, changed))
  {
    hide Broadcast, MayRunAs;
    if e.phase.Created? {
      SetupSafe(env, e, e.(st := map s: Station | s in e.st :: Dropped(e.st[s], s in changed)));
    }
  }

  lemma ConfigSafe(env: Env, e: Engine, request: Request)
    requires Safe(e)
    ensures Safe(UpdateConfig(env, e, request))
  {
  }

  lemma JoinedOfDistinct(e: Engine, a: Alliance, slots: seq<Station>)
    requires Distinct(slots)
    ensures Distinct(JoinedOf(e, a, slots))
  {
    if slots != [] {
      JoinedOfDistinct(e, a, slots[..|slots| - 1]);
      JoinedOfAll(e, a, slots[..|slots| - 1]);
    }
  }

  lemma JoinedOfAll(e: Engine, a: Alliance, slots: seq<Station>)
    ensures forall s :: s in JoinedOf(e, a, slots) <==> s in slots && e.st[s].joined && e.st[s].alliance == Some(a)
  {
  }

  // ── The course of a match ─────────────────────────────────────────

  /** All robots go down, whatever else the step does to the phase. */
  lemma AllDownSafe(env: Env, e: Engine, down: Engine)
    requires Safe(e) && AllDown(down) && PhasesOk(down) && OnlyLeaves(e, down)
    requires Active(down.phase) ==> Active(e.phase)
    ensures Safe(down) && Safe(Broadcast(env, down))
  {
  }

  lemma StartedLegs(env: Env, e: Engine)
    requires JoinedToAlliance(e)
    ensures LegsKept(Started(env, e)) && JoinedToAlliance(Started(env, e)) && AllDown(Started(env, e))
  {
    JoinedOfAll(e, Red, STATIONS);
    JoinedOfAll(e, Blue, STATIONS);
    JoinedOfDistinct(e, Red, STATIONS);
    JoinedOfDistinct(e, Blue, STATIONS);
    hide JoinedOf, Distinct;
    var e' := Started(env, e);
    forall s: Station, a: Alliance | s in e'.order[a] && e'.st[s].joined ensures e'.st[s].alliance == Some(a) {
      assert e'.st[s] == Lined(e, e.st[s]);
      match a
      case Red => assert s in JoinedOf(e, Red, STATIONS);
      case Blue => assert s in JoinedOf(e, Blue, STATIONS);
    }
    forall a: Alliance ensures Distinct(e'.order[a]) {
      match a
      case Red =>
      case Blue =>
    }
  }

  lemma StartSafe(env: Env, e: Engine, gates: bool)
    requires Safe(e)
    ensures Safe(StartMatch(env, e, gates))
  {
    hide MayRunAs, Broadcast, WinnerKnown, StartWinner, JoinedOf, Lined;
    if Starts(e, gates) {
      StartedLegs(env, e);
      Downed(Started(env, e));
      BroadcastSafe(env, Started(env, e));
    }
  }

  lemma AbortSafe(env: Env, e: Engine)
    requires Safe(e)
    ensures Safe(AbortCountdown(env, e))
  {
    hide MayRunAs;
    NotRunningAt(e);
    if e.phase.Countdown? {
      AllDownSafe(env, e, Aborted(e));
    }
  }

  lemma NotRunningAt(e: Engine)
    requires Safe(e)
    ensures Running(e.phase) || AllDown(e)
  {
  }

  lemma EndNowSafe(env: Env, e: Engine, ended: Engine)
    requires JoinedToAlliance(ended) && ended.phase.PostMatch? && AllDown(ended) && !ended.resuming
    requires (ended.prePause.Some? ==> Running(ended.prePause.value)) && RelaysSkipAuto(ended)
    ensures Safe(ended) && Safe(Broadcast(env, ended))
  {
  }

  lemma StopSafe(env: Env, e: Engine)
    requires Safe(e)
    ensures Safe(StopMatch(env, e))
  {
  }

  lemma PauseSafe(env: Env, e: Engine)
    requires Safe(e)
    ensures Safe(PauseMatch(env, e))
  {
    hide MayRunAs, Broadcast;
    NotRunningAt(e);
    if e.phase.Paused? && e.resuming {
      AllDownSafe(env, e, e.(resuming := false));
    } else if Running(e.phase) {
      AllDownSafe(env, e, OnHold(e));
    }
  }

  lemma ResumeSafe(env: Env, e: Engine)
    requires Safe(e)
    ensures Safe(ResumeMatch(env, e))
  {
  }

  lemma CompleteResumeSafe(env: Env, e: Engine)
    requires Safe(e) && e.resuming
    ensures Safe(CompleteResume(env, e))
  {
    hide MayRunAs, Broadcast, EnableParticipating;
    NotRunningAt(e);
    var phase := e.prePause.value;
    var mode := if phase.Auto? then AutoMode else TeleOpMode;
    var back := e.(resuming := false, phase := phase, prePause := None);
    GoLiveSafe(env, back, mode);
    var live := EnableParticipating(env, back, mode);
    var ticking := live.(clock := StartTick(live.clock, env.now));
    Carried(live, ticking);
    BroadcastSafe(env, ticking);
  }

  lemma WinnerSafe(env: Env, e: Engine, a: Alliance)
    requires Safe(e)
    ensures Safe(SetWinner(env, e, a))
  {
    hide MayRunAs, Broadcast;
    var e' := e.(winner := Some(a));
    Carried(e, e');
    BroadcastSafe(env, e');
    var ticking := e'.(clock := StartTick(e.clock, env.now));
    Carried(e, ticking);
    BroadcastSafe(env, ticking);
  }

  lemma DepartedSafe(e: Engine, s: Station)
    requires Safe(e) && e.st[s].joined
    ensures Safe(Departed(e, s)) && SameRun(e, Departed(e, s))
  {
    NotRunningAt(e);
    PutDownSafe(e, s, Left(if Active(e.phase) then e.st[s].(enabled := false) else e.st[s]));
  }

  lemma EmptiedSafe(env: Env, e: Engine)
    requires Safe(e)
    ensures Safe(EndNow(e)) && Safe(Broadcast(env, EndNow(e)))
  {
  }

  lemma LeaveSafe(env: Env, e: Engine, s: Station)
    requires Safe(e)
    ensures Safe(Leave(env, e, s))
  {
    hide Safe, Broadcast, EndRunIfEveryoneFinished, AnyJoined, Departed, EndNow;
    if e.st[s].joined {
      DepartedSafe(e, s);
      var e' := Departed(e, s);
      BroadcastSafe(env, e');
      if Running(e.phase) {
        EveryoneFinishedSafe(env, e');
      }
      EmptiedSafe(env, e');
    }
  }

  /** One robot goes down, and may leave. */
  lemma PutDownSafe(e: Engine, s: Station, c: Control)
    requires Safe(e) && !c.enabled
    requires c.joined ==> e.st[s].joined && c.alliance == e.st[s].alliance
    ensures Safe(Put(e, s, c))
  {
    hide MayRunAs;
    PutCarried(e, Put(e, s, c), s, c);
  }

  lemma RunOverSafe(env: Env, e: Engine)
    requires Safe(e) && Running(e.phase)
    ensures Safe(RunOver(e)) && Safe(Broadcast(env, RunOver(e)))
  {
  }

  lemma EveryoneFinishedSafe(env: Env, e: Engine)
    requires Safe(e) && Running(e.phase)
    ensures Safe(EndRunIfEveryoneFinished(env, e))
  {
    hide Safe, Broadcast, RunOver, Takes, Finished;
    BroadcastSafe(env, e);
    RunOverSafe(env, e);
  }

  // ── Stops ─────────────────────────────────────────────────────────

  lemma FieldEStopSafe(env: Env, e: Engine)
    requires Safe(e)
    ensures Safe(FieldEStop(env, e))
  {
    hide MayRunAs, Broadcast, LegsKept;
    var e' := e.(latch := true, resuming := false, st := DisabledAll(e.st));
    if Active(e.phase) {
      EndNowSafe(env, e', EndNow(e'.(prePause := None)));
    } else {
      AllDownSafe(env, e, e');
    }
  }

  ghost predicate SameMatch(e: Engine, e': Engine) {
    && e'.phase == e.phase && e'.config == e.config && e'.tally == e.tally && e'.order == e.order
    && e'.prePause == e.prePause && e'.resuming == e.resuming && e'.pending == e.pending
  }

  /** Lifting an e-stop enables nobody. */
  lemma LiftingSafe(env: Env, e: Engine, e': Engine)
    requires Safe(e) && SameMatch(e, e') && (e'.latch ==> e.latch)
    requires forall s: Station :: e'.st[s] == e.st[s].(eStop := e'.st[s].eStop)
    requires forall s: Station | e.st[s].enabled :: !e'.st[s].eStop
    ensures Safe(Broadcast(env, Lifting(e, e')))
  {
    hide Broadcast, LegsKept, Lifting, MayRunAs, JoinedToAlliance;
    var lifted := Lifting(e, e');
    forall s: Station
      ensures lifted.st[s].enabled ==> MayRun(lifted, s)
      ensures lifted.st[s].joined == e.st[s].joined && lifted.st[s].alliance == e.st[s].alliance {
      assert e.st[s].enabled ==> MayRun(e, s);
      LiftedAt(e, e', s);
    }
    LiftedAt(e, e', Slot1);
    RosterKept(e, lifted);
    BroadcastSafe(env, lifted);
  }

  lemma LiftedAt(e: Engine, e': Engine, s: Station)
    requires SameMatch(e, e') && (e'.latch ==> e.latch) && e'.st[s] == e.st[s].(eStop := e'.st[s].eStop)
    requires e.st[s].enabled ==> MayRun(e, s) && !e'.st[s].eStop
    ensures var lifted := Lifting(e, e');
            && SameMatch(e, lifted) && lifted.latch == e'.latch
            && (lifted.st[s].enabled ==> MayRun(lifted, s))
            && lifted.st[s].joined == e.st[s].joined && lifted.st[s].alliance == e.st[s].alliance
  {
  }

  lemma EnabledNotStopped(e: Engine)
    requires Safe(e)
    ensures forall s: Station | e.st[s].enabled :: !e.st[s].eStop
  {
  }

  lemma ClearFieldSafe(env: Env, e: Engine)
    requires Safe(e)
    ensures Safe(ClearFieldEStop(env, e))
  {
  }

  lemma ClearAllSafe(env: Env, e: Engine)
    requires Safe(e)
    ensures Safe(ClearAllEStops(env, e))
  {
    hide Broadcast, Lifting, Safe;
    EnabledNotStopped(e);
    LiftingSafe(env, e, e.(latch := false, st := map s: Station | s in e.st :: e.st[s].(eStop := false)));
  }

  lemma ClearedAt(e: Engine, s: Station, t: Station)
    requires e.st[t].enabled ==> !e.st[t].eStop
    ensures var e' := Put(e, s, e.st[s].(eStop := false));
            && SameMatch(e, e') && e'.latch == e.latch
            && e'.st[t] == e.st[t].(eStop := e'.st[t].eStop) && (e.st[t].enabled ==> !e'.st[t].eStop)
  {
  }

  lemma ClearOneSafe(env: Env, e: Engine, s: Station)
    requires Safe(e)
    ensures Safe(ClearEStop(env, e, s))
  {
    hide Broadcast, Lifting, Safe, Put, SameMatch;
    EnabledNotStopped(e);
    var cleared := Put(e, s, e.st[s].(eStop := false));
    forall t: Station
      ensures cleared.st[t] == e.st[t].(eStop := cleared.st[t].eStop) && (e.st[t].enabled ==> !cleared.st[t].eStop) {
      ClearedAt(e, s, t);
    }
    ClearedAt(e, s, s);
    LiftingSafe(env, e, cleared);
  }

  lemma StopOneSafe(env: Env, e: Engine, s: Station, c: Control)
    requires Safe(e) && !c.enabled && c.joined == e.st[s].joined && c.alliance == e.st[s].alliance
    ensures Safe(Put(e, s, c)) && Safe(Broadcast(env, Put(e, s, c)))
  {
    hide Safe;
    PutDownSafe(e, s, c);
    BroadcastSafe(env, Put(e, s, c));
  }

  lemma HeldDownSafe(env: Env, e: Engine, s: Station, cause: Disabler)
    requires Safe(e)
    ensures Safe(HeldDown(e, s, cause)) && Safe(Broadcast(env, HeldDown(e, s, cause)))
  {
    hide Safe, Put;
    StopOneSafe(env, e, s, e.st[s].(enabled := false, disabledBy := Some(cause)));
  }

  lemma EStopSafe(env: Env, e: Engine, s: Station)
    requires Safe(e)
    ensures Safe(StationEStop(env, e, s))
  {
    hide Broadcast, Safe, Put;
    StopOneSafe(env, e, s, e.st[s].(eStop := true, enabled := false));
  }

  lemma AStopSafe(env: Env, e: Engine, s: Station)
    requires Safe(e)
    ensures Safe(StationAStop(env, e, s))
  {
    hide Broadcast, Safe, Put;
    StopOneSafe(env, e, s, e.st[s].(aStop := true, enabled := false));
  }

  lemma ClearAStopSafe(env: Env, e: Engine, s: Station)
    requires Safe(e)
    ensures Safe(ClearAStop(env, e, s))
  {
    NotRunningAt(e);
    hide Broadcast, Safe, Put;
    if e.phase.Created? {
      StopOneSafe(env, e, s, e.st[s].(aStop := false));
    }
  }

  // ── Runs against the clock ────────────────────────────────────────

  lemma LegDoneMayRun(e: Engine, e': Engine, a: Alliance, s: Station)
    requires FmsHandoff(e.config) && CanFinish(e, a) && MayRun(e, s)
    requires e'.st[s] == e.st[s] && Runner(e, a) != Some(s)
    requires e'.phase == e.phase && e'.latch == e.latch && e'.config == e.config && e'.order == e.order
    requires forall b: Alliance | b != a :: e'.tally[b] == e.tally[b]
    ensures MayRun(e', s)
  {
  }

  lemma LegDoneLeaves(e: Engine, a: Alliance, s: Station)
    requires Safe(e) && FmsHandoff(e.config) && CanFinish(e, a)
    ensures LegDone(e, a).st[s].enabled ==> MayRun(LegDone(e, a), s)
  {
    hide MayRunAs, LegsKept, Runner, RunElapsed, FmsHandoff, CanFinish;
    if LegDone(e, a).st[s].enabled {
      assert MayRun(e, s);
      LegDoneMayRun(e, LegDone(e, a), a, s);
    }
  }

  /** With the runner home and down, nobody of its alliance is enabled. */
  lemma LegDoneSafe(e: Engine, a: Alliance)
    requires Safe(e) && FmsHandoff(e.config) && CanFinish(e, a)
    ensures Safe(LegDone(e, a))
  {
    hide MayRun, MayRunAs, LegsKept, Runner, RunElapsed, FmsHandoff, CanFinish;
    var e' := LegDone(e, a);
    forall s: Station ensures e'.st[s].enabled ==> MayRun(e', s) {
      LegDoneLeaves(e, a, s);
    }
    RosterKept(e, e');
  }

  lemma FinishMayRun(e: Engine, e': Engine, a: Alliance, s: Station)
    requires MayRun(e, s) && e'.st[s] == e.st[s] && e.st[s].alliance != Some(a)
    requires e'.phase == e.phase && e'.latch == e.latch && e'.config == e.config && e'.order == e.order
    requires forall b: Alliance | b != a :: e'.tally[b] == e.tally[b]
    ensures MayRun(e', s)
  {
  }

  lemma HomeSafe(e: Engine, a: Alliance, elapsed: real, cause: Disabler)
    requires Safe(e) && Running(e.phase)
    ensures Safe(Home(e, a, elapsed, cause))
  {
    hide MayRunAs, LegsKept;
    var e' := Home(e, a, elapsed, cause);
    forall s: Station | e'.st[s].enabled ensures MayRun(e', s) {
      assert MayRun(e, s);
      assert e.st[s].joined by { EnabledJoined(e, s); }
      FinishMayRun(e, e', a, s);
    }
    RosterKept(e, e');
  }

  lemma RecordFinishSafe(env: Env, e: Engine, a: Alliance, elapsed: real, cause: Disabler)
    requires Safe(e) && Running(e.phase)
    ensures Safe(RecordFinish(env, e, a, elapsed, cause))
  {
    hide Safe, EndRunIfEveryoneFinished;
    HomeSafe(e, a, elapsed, cause);
    EveryoneFinishedSafe(env, Home(e, a, elapsed, cause));
  }

  lemma EnabledJoined(e: Engine, s: Station)
    requires MayRun(e, s)
    ensures e.st[s].joined && Running(e.phase) && !e.latch && !e.st[s].eStop
  {
  }

  lemma RelayAdvanceSafe(env: Env, e: Engine, a: Alliance)
    requires Safe(e)
    ensures Safe(RelayAdvance(env, e, a))
  {
    hide MayRunAs, Broadcast, RecordFinish, EnableStation, LegDone, LegsKept;
    if FmsHandoff(e.config) && CanFinish(e, a) {
      LegDoneSafe(e, a);
      LegDoneKeeps(e, a);
      var home := LegDone(e, a);
      var next := Runner(home, a);
      if next.None? {
        RecordFinishSafe(env, home, a, RunElapsed(e), ByRelay);
      } else {
        NextTurn(e, a);
        EnableStationSafe(env, home, next.value, TeleOpMode);
        BroadcastSafe(env, EnableStation(env, home, next.value, TeleOpMode));
      }
    }
  }

  lemma LegDoneKeeps(e: Engine, a: Alliance)
    ensures var e' := LegDone(e, a);
            && e'.phase == e.phase && e'.latch == e.latch && e'.config == e.config && e'.order == e.order
            && SameRoster(e, e') && e'.tally[a].finishedAt == e.tally[a].finishedAt
  {
    hide Runner, RunElapsed;
    if Runner(e, a).Some? {
      HeldDownKeeps(e, Runner(e, a).value, ByRelay);
    }
  }

  lemma HeldDownKeeps(e: Engine, s: Station, cause: Disabler)
    ensures SameRoster(e, HeldDown(e, s, cause)) && SameRun(e, HeldDown(e, s, cause))
  {
  }

  /** The next runner's turn has come. */
  lemma NextTurn(e: Engine, a: Alliance)
    requires Safe(e) && CanFinish(e, a) && Runner(LegDone(e, a), a).Some?
    ensures TurnOf(LegDone(e, a), Runner(LegDone(e, a), a).value)
  {
    hide MayRunAs;
    LegDoneKeeps(e, a);
    var home := LegDone(e, a);
    hide LegDone;
    var s := Runner(home, a).value;
    if home.st[s].joined {
      assert s in e.order[a] && e.st[s].joined;
      assert home.st[s].alliance == Some(a);
    }
  }

  lemma HandoffSafe(env: Env, e: Engine, s: Station)
    requires Safe(e)
    ensures Safe(HandoffFromDisable(env, e, s))
  {
    hide Safe, RelayAdvance;
    if e.st[s].alliance.Some? {
      RelayAdvanceSafe(env, e, e.st[s].alliance.value);
    }
  }

  lemma FinishSafe(env: Env, e: Engine, a: Alliance)
    requires Safe(e)
    ensures Safe(ChallengeFinish(env, e, a))
  {
    hide Safe, RecordFinish;
    if CanFinish(e, a) {
      RecordFinishSafe(env, e, a, RunElapsed(e), ByAdmin);
    }
  }

  // ── Enable, Disable, and what the Driver Stations say ─────────────

  lemma DisableSafe(env: Env, e: Engine, s: Station, self: bool)
    requires Safe(e)
    ensures Safe(Disable(env, e, s, self))
  {
    hide Safe, HandoffFromDisable, Broadcast, HeldDown;
    var cause := if self then BySelf else ByAdmin;
    HeldDownSafe(env, e, s, cause);
    HandoffSafe(env, Broadcast(env, HeldDown(e, s, cause)), s);
  }

  lemma UndisabledMayRun(env: Env, e: Engine, s: Station, byAdmin: bool, c: Control)
    requires PhasesOk(e) && JoinedToAlliance(e) && Undisables(env, e, s, byAdmin)
    requires c == e.st[s].(mode := ModeIn(e.phase), enabled := true, disabledBy := None)
    ensures MayRunAs(e, s, c)
  {
  }

  lemma UndisableSafe(env: Env, e: Engine, s: Station, byAdmin: bool)
    requires Safe(e)
    ensures Safe(Undisable(env, e, s, byAdmin))
  {
    hide MayRunAs, Broadcast, Undisables, MarkFmsEnabled;
    if Undisables(env, e, s, byAdmin) {
      var live := Revived(env, e, s);
      UndisabledMayRun(env, e, s, byAdmin, live.st[s]);
      PutCarried(e, live, s, live.st[s]);
      BroadcastSafe(env, live);
    }
  }

  lemma HeardSafe(e: Engine, heard: Heard)
    requires Safe(e)
    ensures Safe(e.(heard := heard))
  {
  }

  lemma HeartbeatSafe(env: Env, e: Engine, s: Station, enabled: bool)
    requires Safe(e)
    ensures Safe(NoteHeartbeat(env, e, s, enabled))
  {
    hide Safe, Broadcast, Undisable;
    var h := if enabled then e.heard.(enabledSeen := e.heard.enabledSeen + {s}) else e.heard;
    var h' := h.(heartbeat := h.heartbeat[s := env.now]);
    var e' := e.(heard := h');
    HeardSafe(e, h');
    BroadcastSafe(env, e');
    UndisableSafe(env, e', s, false);
    BroadcastSafe(env, Undisable(env, e', s, false));
  }

  lemma HonourSafe(env: Env, e: Engine, s: Station, status: Status)
    requires Safe(e)
    ensures Safe(HonourStatus(env, e, s, status))
  {
    hide Safe, HandoffFromDisable, Broadcast, DriverDisabled, ReportsAStop, Put, HeldDown;
    StopOneSafe(env, e, s, e.st[s].(eStop := true, enabled := false));
    StopOneSafe(env, e, s, e.st[s].(aStop := true, enabled := false));
    HeldDownSafe(env, e, s, ByDs);
    HandoffSafe(env, Broadcast(env, HeldDown(e, s, ByDs)), s);
  }

  lemma StatusSafe(env: Env, e: Engine, s: Station, status: Status)
    requires Safe(e)
    ensures Safe(DsStatus(env, e, s, status))
  {
    hide Safe, NoteHeartbeat, HonourStatus;
    HeartbeatSafe(env, e, s, status.enabled);
    HonourSafe(env, NoteHeartbeat(env, e, s, status.enabled), s, status);
  }

  lemma StopsSafe(e: Engine, stops: Stops)
    requires Safe(e)
    ensures Safe(e.(stops := stops))
  {
  }

  lemma ControlSafe(env: Env, e: Engine, s: Station, enabled: Option<bool>)
    requires Safe(e)
    ensures Safe(NoteControl(env, e, s, enabled))
  {
    hide Safe, Broadcast;
    var h := e.heard.(control := e.heard.control[s := DsControl(env.now, enabled)]);
    HeardSafe(e, h);
    var e' := e.(heard := h);
    BroadcastSafe(env, e');
    var stops := e'.stops.(waits := e'.stops.waits + {s});
    StopsSafe(e', stops);
    BroadcastSafe(env, e'.(stops := stops));
  }

  // ── The tick ──────────────────────────────────────────────────────

  lemma AdvancedSafe(e: Engine, now: int)
    requires Safe(e)
    ensures Safe(Advanced(e, now))
  {
  }

  lemma EnterTeleopSafe(env: Env, e: Engine)
    requires Safe(e) && (e.phase.Countdown? || e.phase.AutoPause? || e.phase.Auto?)
    requires e.config.Some?
    ensures Safe(EnterTeleop(env, e))
  {
    hide EnableParticipating;
    var live := e.(phase := Teleop, clock := Expired(e.clock, e.config.value.teleopDuration));
    forall s: Station | live.st[s].enabled ensures MayRunBut(live, s, live.st[s]) {
      assert MayRun(e, s);
    }
    RosterKept(e, live);
    EnableParticipatingSafe(env, live, TeleOpMode);
  }

  lemma ToAutoSafe(env: Env, e: Engine, live: Engine)
    requires Safe(e) && e.phase.Countdown? && e.config.Some? && !e.config.value.skipAuto
    requires live == e.(phase := Auto, runStartedAt := live.runStartedAt, clock := live.clock)
    ensures Safe(EnableParticipating(env, live, AutoMode))
  {
    hide MayRunAs, EnableParticipating;
    NotRunning(e);
    RosterKept(e, live);
    GoLiveSafe(env, live, AutoMode);
  }

  lemma WithWinnerSafe(e: Engine, winner: Option<Alliance>, startedAt: Option<real>)
    requires Safe(e)
    ensures Safe(e.(winner := winner)) && Safe(e.(runStartedAt := startedAt))
  {
    hide MayRunAs;
    Carried(e, e.(winner := winner));
    Carried(e, e.(runStartedAt := startedAt));
  }

  lemma HeldSafe(env: Env, e: Engine, held: Engine)
    requires Safe(e) && Active(e.phase) && e.prePause == held.prePause && !held.resuming
    requires held == e.(phase := held.phase, st := DisabledAll(e.st), clock := held.clock)
    requires held.phase.AutoPause? || held.phase.PostMatch?
    ensures Safe(held)
  {
  }

  lemma ExpiredSafe(env: Env, e: Engine, pick: Alliance)
    requires Safe(e) && e.config.Some?
    ensures Safe(PhaseExpired(env, e, pick))
  {
    hide MayRunAs, EnterTeleop, EnableParticipating, LegsKept, EnabledOnlyIf, JoinedToAlliance, AutoWinner;
    var c := e.config.value;
    match e.phase
    case Countdown =>
      var started := e.(runStartedAt := Some(e.clock.total));
      WithWinnerSafe(e, e.winner, Some(e.clock.total));
      if c.skipAuto || c.autoDuration <= 0.0 {
        EnterTeleopSafe(env, started);
      } else {
        ToAutoSafe(env, e, e.(runStartedAt := Some(e.clock.total), phase := Auto, clock := Expired(e.clock, c.autoDuration)));
      }
    case Auto =>
      var held := e.(phase := AutoPause, st := DisabledAll(e.st), clock := Expired(e.clock, c.pauseDuration));
      HeldSafe(env, e, held);
      HeldSafe(env, e, held.(clock := StopTick(held.clock)));
      WithWinnerSafe(e, AutoWinner(c, e.winner, pick), e.runStartedAt);
      EnterTeleopSafe(env, e.(winner := AutoWinner(c, e.winner, pick)));
    case AutoPause =>
      WithWinnerSafe(e, AutoWinner(c, e.winner, pick), e.runStartedAt);
      EnterTeleopSafe(env, e.(winner := AutoWinner(c, e.winner, pick)));
    case Teleop => HeldSafe(env, e, EndByTimer(e));
    case Endgame => HeldSafe(env, e, EndByTimer(e));
    case _ =>
  }

  lemma IntoEndgameSafe(e: Engine)
    requires Safe(e) && e.phase.Teleop?
    ensures Safe(e.(phase := Endgame))
  {
  }

  lemma TransitionSafe(env: Env, e: Engine, pick: Alliance)
    requires Safe(e)
    ensures Safe(Transition(env, e, pick))
  {
    hide MayRunAs, PhaseExpired, Broadcast;
    NotRunningAt(e);
    if e.config.Some? {
      if e.phase.PostMatch? {
        SetupSafe(env, e, Released(e));
      } else if e.clock.remaining > 0.0 {
        if e.phase.Teleop? {
          IntoEndgameSafe(e);
        }
      } else {
        ExpiredSafe(env, e, pick);
      }
    }
  }

  lemma TickSafe(env: Env, e: Engine, pick: Alliance)
    requires Safe(e)
    ensures Safe(Tick(env, e, pick))
  {
    hide Safe, Advanced, Transition, Broadcast;
    AdvancedSafe(e, env.now);
    TransitionSafe(env, Advanced(e, env.now), pick);
    BroadcastSafe(env, Transition(env, Advanced(e, env.now), pick));
  }

  // ── Every step, every run ─────────────────────────────────────────

  /** What staff and the teams do to a match that is not over. */
  lemma CourseSafe(env: Env, e: Engine, op: Op)
    requires Safe(e) && Possible(e, op)
    requires op.DoLeave? || op.DoStart? || op.DoAbort? || op.DoStop? || op.DoPause? || op.DoResume? || op.ResumeTimer?
             || op.DoWinner? || op.DoFinish? || op.DoRelay? || op.TickTimer? || op.OtherBroadcast?
    ensures Safe(Next(env, e, op))
  {
    hide Safe, Leave, StartMatch, AbortCountdown, StopMatch, PauseMatch, ResumeMatch, CompleteResume, SetWinner,
      ChallengeFinish, RelayAdvance, Tick, Broadcast;
    match op
    case DoLeave(s) => LeaveSafe(env, e, s);
    case DoStart(gates) => StartSafe(env, e, gates);
    case DoAbort => AbortSafe(env, e);
    case DoStop => StopSafe(env, e);
    case DoPause => PauseSafe(env, e);
    case DoResume => ResumeSafe(env, e);
    case ResumeTimer => CompleteResumeSafe(env, e);
    case DoWinner(a) => WinnerSafe(env, e, a);
    case DoFinish(a) => FinishSafe(env, e, a);
    case DoRelay(a) => RelayAdvanceSafe(env, e, a);
    case TickTimer(pick) => TickSafe(env, e, pick);
    case OtherBroadcast => BroadcastSafe(env, e);
  }

  /** No step of the engine, in any order, leaves a robot enabled that may not
      run. */
  lemma NextSafe(env: Env, e: Engine, op: Op)
    requires Safe(e) && Possible(e, op)
    ensures Safe(Next(env, e, op))
  {
    hide Safe, CreateMatch, CancelMatch, ClearMatch, UpdateConfig, Join, SwapAlliance, Kick, Reconcile, FieldEStop,
      ClearFieldEStop, StationEStop, StationAStop, ClearAStop, ClearEStop, ClearAllEStops, Disable, Undisable, DsStatus,
      NoteControl, Possible;
    match op
    case DoCreate => CreateSafe(env, e);
    case DoCancel => CancelSafe(env, e);
    case DoClear => ClearSafe(env, e);
    case DoConfig(request) => ConfigSafe(env, e, request);
    case DoJoin(s, a) => JoinSafe(env, e, s, a);
    case DoSwap(s) => SwapSafe(env, e, s);
    case DoKick(s) => KickSafe(env, e, s);
    case DoReconcile(changed) => ReconcileSafe(env, e, changed);
    case DoFieldEStop => FieldEStopSafe(env, e);
    case DoClearField => ClearFieldSafe(env, e);
    case DoEStop(s) => EStopSafe(env, e, s);
    case DoAStop(s) => AStopSafe(env, e, s);
    case DoClearAStop(s) => ClearAStopSafe(env, e, s);
    case DoClearEStop(s) => ClearOneSafe(env, e, s);
    case DoClearAll => ClearAllSafe(env, e);
    case DoDisable(s, self) => DisableSafe(env, e, s, self);
    case DoUndisable(s, byAdmin) => UndisableSafe(env, e, s, byAdmin);
    case StatusFrom(s, status) => StatusSafe(env, e, s, status);
    case ControlSeen(s, enabled) => ControlSafe(env, e, s, enabled);
    case _ => CourseSafe(env, e, op);
  }

  /** In every run, every robot that is enabled may run. */
  lemma {:induction false} RunSafe(e: Engine, steps: seq<Step>)
    requires Safe(e) && Runs(e, steps)
    ensures Safe(Run(e, steps))
    ensures EnabledOnlyIf(Run(e, steps)) && (Run(e, steps).latch ==> !Active(Run(e, steps).phase))
  {
    if steps != [] {
      var last := steps[|steps| - 1];
      RunSafe(e, steps[..|steps| - 1]);
      hide Next, Possible;
      NextSafe(last.env, Run(e, steps[..|steps| - 1]), last.op);
    }
  }
}
