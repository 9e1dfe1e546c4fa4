/** Coming out of an e-stop during a match: the mark that keeps a robot down
    until someone presses Enable, and what can take it away. */
module EngineMark {
  import opened Field
  import opened EngineState
  import opened EngineSafety

  predicate Marked(e: Engine, s: Station) { e.st[s].disabledBy == Some(ByEStop) }

  lemma MarkedIsDown(e: Engine, s: Station)
    requires Safe(e) && Marked(e, s)
    ensures !e.st[s].enabled
  {
  }

  lemma BroadcastKeeps(env: Env, e: Engine)
    ensures Broadcast(env, e) == e.(stops := Broadcast(env, e).stops)
  {
  }

  // ── Which steps put another mark, or none, in its place ───────────

  predicate OnAlliance(e: Engine, s: Station, a: Alliance) { e.st[s].joined && e.st[s].alliance == Some(a) }

  /** Whom a hand-off of alliance `a` holds down for the relay: its runner,
      and after the last leg the whole alliance. */
  predicate HandoffMarks(e: Engine, a: Alliance, s: Station) {
    && FmsHandoff(e.config) && CanFinish(e, a)
    && (Runner(e, a) == Some(s) || (|e.tally[a].splits| + 1 >= |e.order[a]| && OnAlliance(e, s, a)))
  }

  predicate DriverHandsOff(e: Engine, t: Station) {
    && FmsHandoff(e.config) && e.config.value.challenge.value.handoff.FromDs? && Running(e.phase)
    && e.st[t].alliance.Some? && Runner(e, e.st[t].alliance.value) == Some(t)
  }

  predicate WaitsForLeg(e: Engine, s: Station) {
    e.st[s].joined && !Finished(e, e.st[s].alliance) && AwaitsLeg(e, s)
  }

  /** The boundaries that send the robots live. */
  predicate BoundaryGoesLive(e: Engine) {
    && e.config.Some?
    && (e.phase.Countdown? || e.phase.AutoPause?
        || (e.phase.Auto? && e.config.value.pauseDuration <= 0.0 && !e.config.value.autoWinner.AskReferee?))
  }

  predicate TickGoesLive(e: Engine, now: int) { e.clock.remaining - Elapsed(e, now) <= 0.0 && BoundaryGoesLive(e) }

  /** Whether this packet counts as the driver of `t` pressing Disable. */
  predicate Disables(env: Env, e: Engine, t: Station, status: Status) {
    !ReportsEStop(e, t, status) && !ReportsAStop(e, t, status) && DriverDisabled(env, e, t, status)
  }

  predicate PacketDisables(env: Env, e: Engine, t: Station, status: Status) {
    Disables(env, NoteHeartbeat(env, e, t, status.enabled), t, status)
  }

  /** The steps that take the e-stop mark off station `s`: Enable, a new
      match, a Disable of the robot itself, and the relay's or the run's own
      reasons to hold it down. */
  predicate Overwrites(env: Env, e: Engine, op: Op, s: Station) {
    match op
    case DoUndisable(t, byAdmin) => t == s && Undisables(env, e, s, byAdmin)
    case DoCreate => e.phase.Idle? || e.phase.PostMatch?
    case DoStart(gates) => Starts(e, gates) && !e.st[s].eStop
    case DoDisable(t, self) => t == s || (self && e.st[t].enabled && DriverHandsOff(e, t) && HandoffMarks(e, e.st[t].alliance.value, s))
    case StatusFrom(t, status) => PacketDisables(env, e, t, status) && DriverHandsOff(e, t) && HandoffMarks(e, e.st[t].alliance.value, s)
    case DoFinish(a) => !FmsHandoff(e.config) && CanFinish(e, a) && OnAlliance(e, s, a)
    case DoRelay(a) => HandoffMarks(e, a, s)
    case TickTimer(_) => TickGoesLive(e, env.now) && WaitsForLeg(e, s)
    case ResumeTimer => WaitsForLeg(e, s)
    case _ => false
  }

  // ── Step by step ──────────────────────────────────────────────────

  lemma ParticipatingMark(env: Env, e: Engine, s: Station, mode: Mode)
    requires Marked(e, s) && !e.st[s].enabled
    ensures Participating(env, e, s, mode).disabledBy == Some(ByEStop) <==> !WaitsForLeg(e, s)
    ensures !Participating(env, e, s, mode).enabled
  {
  }

  lemma ReleaseAt(e: Engine, s: Station, mode: Mode)
    ensures var r := AStopsReleased(e, mode);
            r == e.(st := r.st) && r.st[s] == e.st[s].(aStop := r.st[s].aStop) && (r.st[s].aStop ==> e.st[s].aStop)
  {
  }

  lemma GoLiveMark(env: Env, e: Engine, s: Station, mode: Mode)
    requires Marked(e, s) && !e.st[s].enabled
    ensures Marked(EnableParticipating(env, e, mode), s) <==> !WaitsForLeg(e, s)
    ensures !EnableParticipating(env, e, mode).st[s].enabled
  {
    hide EnableParticipating, Participating, AStopsReleased;
    ParticipatingAt(env, e, s, mode);
    ReleaseAt(e, s, mode);
    ParticipatingMark(env, AStopsReleased(e, mode), s, mode);
  }

  lemma EveryoneFinishedAt(env: Env, e: Engine, s: Station)
    ensures EndRunIfEveryoneFinished(env, e).st[s] == e.st[s]
            || EndRunIfEveryoneFinished(env, e).st[s] == e.st[s].(enabled := false)
  {
    hide Broadcast, Takes, Finished;
    BroadcastKeeps(env, e);
    BroadcastKeeps(env, RunOver(e));
  }

  lemma FinishMark(env: Env, e: Engine, a: Alliance, elapsed: real, cause: Disabler, s: Station)
    requires !e.st[s].enabled && !cause.ByEStop?
    ensures Marked(RecordFinish(env, e, a, elapsed, cause), s) <==> Marked(e, s) && !OnAlliance(e, s, a)
    ensures !RecordFinish(env, e, a, elapsed, cause).st[s].enabled
  {
    hide EndRunIfEveryoneFinished;
    EveryoneFinishedAt(env, Home(e, a, elapsed, cause), s);
  }

  lemma LegDoneMark(e: Engine, a: Alliance, s: Station)
    requires Marked(e, s) && !e.st[s].enabled
    ensures Marked(LegDone(e, a), s) <==> Runner(e, a) != Some(s)
    ensures !LegDone(e, a).st[s].enabled && OnAlliance(LegDone(e, a), s, a) == OnAlliance(e, s, a)
  {
  }

  lemma EnableStationMark(env: Env, e: Engine, t: Station, mode: Mode, s: Station)
    requires !e.st[s].enabled && (Marked(e, s) || t != s)
    ensures var e' := EnableStation(env, e, t, mode);
            e'.st[s].disabledBy == e.st[s].disabledBy && !e'.st[s].enabled
  {
  }

  /** The leg after the last is nobody's, and no other is the runner's again. */
  lemma NextLeg(e: Engine, a: Alliance)
    requires CanFinish(e, a) && Distinct(e.order[a])
    ensures var next := Runner(LegDone(e, a), a);
            && (next.None? <==> |e.tally[a].splits| + 1 >= |e.order[a]|)
            && (next.Some? ==> next != Runner(e, a))
  {
  }

  ghost predicate LegsWhileRunning(e: Engine) { Running(e.phase) ==> LegsKept(e) }

  lemma RelayMark(env: Env, e: Engine, a: Alliance, s: Station)
    requires LegsWhileRunning(e) && Marked(e, s) && !e.st[s].enabled
    ensures Marked(RelayAdvance(env, e, a), s) <==> !HandoffMarks(e, a, s)
    ensures !RelayAdvance(env, e, a).st[s].enabled
  {
    hide LegDone, RecordFinish, EnableStation, Broadcast, FmsHandoff, RunElapsed, Runner, Takes, Distinct;
    if FmsHandoff(e.config) && CanFinish(e, a) {
      NextLeg(e, a);
      LegDoneMark(e, a, s);
      var home := LegDone(e, a);
      var next := Runner(home, a);
      if next.None? {
        FinishMark(env, home, a, RunElapsed(e), ByRelay, s);
      } else {
        EnableStationMark(env, home, next.value, TeleOpMode, s);
        BroadcastKeeps(env, EnableStation(env, home, next.value, TeleOpMode));
      }
    }
  }

  lemma HandoffMark(env: Env, e: Engine, t: Station, s: Station)
    requires LegsWhileRunning(e) && Marked(e, s) && !e.st[s].enabled
    ensures var e' := HandoffFromDisable(env, e, t);
            && (Marked(e', s) <==> !(DriverHandsOff(e, t) && HandoffMarks(e, e.st[t].alliance.value, s)))
            && !e'.st[s].enabled
  {
    hide RelayAdvance, LegsWhileRunning, HandoffMarks;
    if e.st[t].alliance.Some? {
      RelayMark(env, e, e.st[t].alliance.value, s);
    }
  }

  /** Whatever e-stop holds station `s` still does. */
  predicate Stands(e: Engine, e': Engine, s: Station) { (e.latch ==> e'.latch) && (e.st[s].eStop ==> e'.st[s].eStop) }

  /** Held down, and marked or not. */
  predicate Held(e: Engine, s: Station, marked: bool) { !e.st[s].enabled && (Marked(e, s) <==> marked) }

  lemma BroadcastsKeep(env: Env)
    ensures forall e: Engine :: Broadcast(env, e).st == e.st && Broadcast(env, e).latch == e.latch
  {
  }

  lemma StartMark(env: Env, e: Engine, gates: bool, s: Station)
    requires Held(e, s, true)
    ensures Held(StartMatch(env, e, gates), s, !(Starts(e, gates) && !e.st[s].eStop))
  {
  }

  /** The station is as it was, as far as its stops and its mark go, or it
      has gone down. */
  predicate Kept(e: Engine, e': Engine, s: Station) {
    && Stands(e, e', s) && e'.st[s].disabledBy == e.st[s].disabledBy && (e'.st[s].enabled ==> e.st[s].enabled)
  }

  /** Enough for a step that ends in a broadcast: every station keeps its
      stops and its mark, and none is enabled by it. */
  ghost predicate KeepsAll(e: Engine, e': Engine) {
    && (e.latch ==> e'.latch)
    && forall s: Station :: e'.st[s].disabledBy == e.st[s].disabledBy && (e.st[s].eStop ==> e'.st[s].eStop)
                            && (e'.st[s].enabled ==> e.st[s].enabled)
  }

  lemma ToldKept(env: Env, e: Engine, e': Engine, s: Station)
    requires KeepsAll(e, e')
    ensures Kept(e, Broadcast(env, e'), s) && Kept(e, e, s)
  {
  }

  lemma PutKept(env: Env, e: Engine, t: Station, c: Control, s: Station)
    requires c.disabledBy == e.st[t].disabledBy && (e.st[t].eStop ==> c.eStop) && (c.enabled ==> e.st[t].enabled)
    ensures Kept(e, Broadcast(env, Put(e, t, c)), s) && Kept(e, e, s)
  {
  }

  lemma SetupKept(env: Env, e: Engine, request: Request, s: Station)
    ensures Kept(e, CancelMatch(env, e), s)
    ensures Kept(e, UpdateConfig(env, e, request), s)
  {
    hide Broadcast, ConfigFor, Kept;
    ToldKept(env, e, e.(st := Unjoined(e.st), phase := Idle), s);
    ToldKept(env, e, e.(pending := ConfigFor(request)), s);
  }

  lemma ReconcileKept(env: Env, e: Engine, changed: set<Station>, s: Station)
    ensures Kept(e, Reconcile(env, e, changed), s)
  {
    hide Broadcast, Kept;
    ToldKept(env, e, e.(st := map x: Station | x in e.st :: Dropped(e.st[x], x in changed)), s);
  }

  lemma SlotsKept(env: Env, e: Engine, t: Station, a: Alliance, s: Station)
    ensures Kept(e, Join(env, e, t, a), s)
    ensures Kept(e, SwapAlliance(env, e, t), s)
    ensures Kept(e, Kick(env, e, t), s)
  {
    hide Broadcast, Full, Kept, Put;
    PutKept(env, e, t, e.st[t].(joined := true, alliance := Some(a)), s);
    PutKept(env, e, t, e.st[t].(alliance := Some(a)), s);
    PutKept(env, e, t, Left(e.st[t]), s);
    if e.st[t].alliance.Some? {
      PutKept(env, e, t, e.st[t].(alliance := Some(Other(e.st[t].alliance.value))), s);
    }
  }

  lemma HaltKept(env: Env, e: Engine, s: Station)
    ensures Kept(e, AbortCountdown(env, e), s)
    ensures Kept(e, StopMatch(env, e), s)
    ensures Kept(e, PauseMatch(env, e), s)
  {
    hide Broadcast, Kept;
    ToldKept(env, e, Aborted(e), s);
    ToldKept(env, e, EndNow(e), s);
    ToldKept(env, e, e.(resuming := false), s);
    ToldKept(env, e, OnHold(e), s);
  }

  lemma CourseKept(env: Env, e: Engine, a: Alliance, s: Station)
    ensures Kept(e, ResumeMatch(env, e), s)
    ensures Kept(e, SetWinner(env, e, a), s)
    ensures Kept(e, Broadcast(env, e), s)
  {
    hide Broadcast, Kept;
    ToldKept(env, e, e, s);
    ToldKept(env, e, e.(resuming := true), s);
    ToldKept(env, e, e.(winner := Some(a)), s);
    ToldKept(env, e, e.(winner := Some(a), clock := StartTick(e.clock, env.now)), s);
  }

  lemma FieldKept(env: Env, e: Engine, s: Station)
    ensures Kept(e, FieldEStop(env, e), s)
  {
    hide Broadcast, Kept;
    var e' := e.(latch := true, resuming := false, st := DisabledAll(e.st));
    ToldKept(env, e, e', s);
    ToldKept(env, e, EndNow(e'.(prePause := None)), s);
  }

  lemma HeardKept(env: Env, e: Engine, e': Engine, s: Station)
    requires e'.st == e.st && e'.latch == e.latch
    ensures Kept(e, e', s) && Kept(e, Broadcast(env, e'), s)
  {
  }

  lemma ControlKept(env: Env, e: Engine, t: Station, enabled: Option<bool>, s: Station)
    ensures Kept(e, NoteControl(env, e, t, enabled), s)
  {
    hide Broadcast, Kept;
    var e' := e.(heard := e.heard.(control := e.heard.control[t := DsControl(env.now, enabled)]));
    HeardKept(env, e, e', s);
    HeardKept(env, e, e'.(stops := e'.stops.(waits := e'.stops.waits + {t})), s);
  }

  lemma PressKept(env: Env, e: Engine, t: Station, s: Station)
    ensures Kept(e, StationEStop(env, e, t), s)
    ensures Kept(e, StationAStop(env, e, t), s)
    ensures Kept(e, ClearAStop(env, e, t), s)
  {
    hide Broadcast, CanAStop, Kept, Put;
    PutKept(env, e, t, e.st[t].(eStop := true, enabled := false), s);
    PutKept(env, e, t, e.st[t].(aStop := true, enabled := false), s);
    PutKept(env, e, t, e.st[t].(aStop := false), s);
  }

  lemma EveryoneFinishedKept(env: Env, e: Engine, s: Station)
    ensures Kept(e, EndRunIfEveryoneFinished(env, e), s)
  {
    hide Broadcast, Takes, Finished;
    BroadcastsKeep(env);
  }

  lemma LeaveKept(env: Env, e: Engine, t: Station, s: Station)
    ensures Kept(e, Leave(env, e, t), s)
  {
    hide Broadcast, EndRunIfEveryoneFinished, AnyJoined, Departed, Kept;
    DepartedKept(e, t, s);
    EveryoneFinishedKept(env, Departed(e, t), s);
    EndedKept(env, e, t, s);
    KeptTwice(e, Departed(e, t), EndRunIfEveryoneFinished(env, Departed(e, t)), s);
  }

  lemma DepartedKept(e: Engine, t: Station, s: Station)
    ensures Kept(e, Departed(e, t), s)
  {
  }

  lemma EndedKept(env: Env, e: Engine, t: Station, s: Station)
    ensures Kept(e, Broadcast(env, EndNow(Departed(e, t))), s)
    ensures Kept(e, Broadcast(env, Departed(e, t)), s) && Kept(e, e, s)
  {
    hide Broadcast, Kept, Departed;
    forall x: Station ensures Kept(e, Departed(e, t), x) {
      DepartedKept(e, t, x);
    }
    KeptAll(e, Departed(e, t));
    ToldKept(env, e, Departed(e, t), s);
    ToldKept(env, e, EndNow(Departed(e, t)), s);
  }

  lemma KeptAll(e: Engine, e': Engine)
    requires forall s: Station :: Kept(e, e', s)
    ensures KeepsAll(e, e')
  {
    assert Kept(e, e', Slot1);
    forall s: Station
      ensures e'.st[s].disabledBy == e.st[s].disabledBy && (e.st[s].eStop ==> e'.st[s].eStop)
              && (e'.st[s].enabled ==> e.st[s].enabled) {
      assert Kept(e, e', s);
    }
  }

  lemma KeptTwice(e: Engine, mid: Engine, e': Engine, s: Station)
    requires Kept(e, mid, s) && Kept(mid, e', s)
    ensures Kept(e, e', s)
  {
  }

  lemma KeptHeld(e: Engine, e': Engine, s: Station)
    requires Held(e, s, true) && Kept(e, e', s)
    ensures Held(e', s, true)
  {
  }

  /** The steps that neither enable anyone, nor lift an e-stop, nor give a
      reason to hold a robot down. */
  predicate Plain(op: Op) {
    op.DoCancel? || op.DoConfig? || op.DoReconcile? || op.DoJoin? || op.DoSwap? || op.DoKick? || op.DoAbort? || op.DoStop?
    || op.DoPause? || op.DoResume? || op.DoWinner? || op.OtherBroadcast? || op.DoFieldEStop? || op.ControlSeen?
    || op.DoEStop? || op.DoAStop? || op.DoClearAStop? || op.DoLeave?
  }

  lemma PlainKept(env: Env, e: Engine, op: Op, s: Station)
    requires Plain(op)
    ensures Kept(e, Next(env, e, op), s)
  {
    hide Kept, CancelMatch, UpdateConfig, Join, SwapAlliance, Kick, Reconcile, Leave, AbortCountdown, StopMatch, PauseMatch,
      ResumeMatch, SetWinner, FieldEStop, StationEStop, StationAStop, ClearAStop, NoteControl, Broadcast;
    match op
    case DoCancel => SetupKept(env, e, OfficialMatch(false, ByScores), s);
    case DoConfig(request) => SetupKept(env, e, request, s);
    case DoReconcile(changed) => ReconcileKept(env, e, changed, s);
    case DoJoin(t, a) => SlotsKept(env, e, t, a, s);
    case DoSwap(t) => SlotsKept(env, e, t, Red, s);
    case DoKick(t) => SlotsKept(env, e, t, Red, s);
    case DoAbort => HaltKept(env, e, s);
    case DoStop => HaltKept(env, e, s);
    case DoPause => HaltKept(env, e, s);
    case DoResume => CourseKept(env, e, Red, s);
    case DoWinner(a) => CourseKept(env, e, a, s);
    case OtherBroadcast => CourseKept(env, e, Red, s);
    case DoFieldEStop => FieldKept(env, e, s);
    case ControlSeen(t, enabled) => ControlKept(env, e, t, enabled, s);
    case DoEStop(t) => PressKept(env, e, t, s);
    case DoAStop(t) => PressKept(env, e, t, s);
    case DoClearAStop(t) => PressKept(env, e, t, s);
    case DoLeave(t) => LeaveKept(env, e, t, s);
  }

  lemma LiftingHeld(env: Env, e: Engine, e': Engine, s: Station)
    requires Held(e, s, true) && e'.st[s].disabledBy == e.st[s].disabledBy && !e'.st[s].enabled
    ensures Held(Broadcast(env, Lifting(e, e')), s, true)
  {
  }

  lemma ReleaseMark(env: Env, e: Engine, s: Station)
    requires Held(e, s, true)
    ensures Held(ClearFieldEStop(env, e), s, true) && Held(ClearAllEStops(env, e), s, true)
  {
    hide Broadcast, Lifting;
    LiftingHeld(env, e, e.(latch := false), s);
    LiftingHeld(env, e, e.(latch := false, st := map x: Station | x in e.st :: e.st[x].(eStop := false)), s);
  }

  lemma ClearOneMark(env: Env, e: Engine, t: Station, s: Station)
    requires Held(e, s, true)
    ensures Held(ClearEStop(env, e, t), s, true)
  {
    hide Broadcast;
    BroadcastsKeep(env);
  }

  lemma ResetMark(env: Env, e: Engine, s: Station)
    requires Held(e, s, true)
    ensures Held(CreateMatch(env, e), s, !(e.phase.Idle? || e.phase.PostMatch?))
    ensures Held(ClearMatch(env, e), s, true)
  {
  }

  /** A robot going down, or a broadcast, changes nobody's turn. */
  lemma SameTurns(e: Engine, e': Engine, t: Station, s: Station)
    requires SameRun(e, e') && SameRoster(e, e')
    ensures DriverHandsOff(e', t) == DriverHandsOff(e, t)
    ensures forall a: Alliance :: HandoffMarks(e', a, s) == HandoffMarks(e, a, s)
  {
    SameTakes(e, e');
    assert e'.st[t].alliance == e.st[t].alliance;
    assert e'.st[s].alliance == e.st[s].alliance && e'.st[s].joined == e.st[s].joined;
    SameRunner(e, e');
    hide Takes, SameRoster, Runner;
  }

  lemma SameRunner(e: Engine, e': Engine)
    requires SameRun(e, e')
    ensures forall a: Alliance :: Runner(e', a) == Runner(e, a)
  {
  }

  lemma SameTakes(e: Engine, e': Engine)
    requires SameRoster(e, e')
    ensures forall a: Alliance :: Takes(e', a) == Takes(e, a)
  {
  }

  lemma HeldDownMark(e: Engine, t: Station, cause: Disabler, s: Station)
    requires Held(e, s, true) && !cause.ByEStop?
    ensures Held(HeldDown(e, t, cause), s, t != s)
  {
  }

  lemma DownAndTold(env: Env, e: Engine, t: Station, cause: Disabler)
    ensures var e' := Broadcast(env, HeldDown(e, t, cause));
            SameRun(e, e') && SameRoster(e, e') && e'.st == HeldDown(e, t, cause).st
  {
    hide HeldDown;
    HeldDownKeeps(e, t, cause);
  }

  lemma DownThenHandoff(env: Env, e: Engine, t: Station, cause: Disabler, s: Station)
    requires Held(e, s, true) && LegsWhileRunning(e) && t != s && !cause.ByEStop?
    ensures Held(HandoffFromDisable(env, Broadcast(env, HeldDown(e, t, cause)), t), s,
                 !(DriverHandsOff(e, t) && HandoffMarks(e, e.st[t].alliance.value, s)))
  {
    hide HandoffFromDisable, LegsKept, HandoffMarks, HeldDown, Broadcast, Takes, FmsHandoff, Runner;
    var down := Broadcast(env, HeldDown(e, t, cause));
    HeldDownMark(e, t, cause, s);
    DownAndTold(env, e, t, cause);
    RosterKept(e, down);
    SameTurns(e, down, t, s);
    assert down.st[t].alliance == e.st[t].alliance;
    HandoffMark(env, down, t, s);
  }

  lemma DisableMark(env: Env, e: Engine, t: Station, self: bool, s: Station)
    requires Held(e, s, true) && LegsWhileRunning(e)
    ensures Held(Disable(env, e, t, self), s,
                 !(t == s || (self && e.st[t].enabled && DriverHandsOff(e, t) && HandoffMarks(e, e.st[t].alliance.value, s))))
  {
    hide Broadcast, HandoffFromDisable, LegsWhileRunning, HandoffMarks, DriverHandsOff, HeldDown;
    var cause := if self then BySelf else ByAdmin;
    BroadcastsKeep(env);
    HeldDownMark(e, t, cause, s);
    if t != s {
      DownThenHandoff(env, e, t, cause, s);
    }
  }

  // ── Packets, Enable, and the clock ────────────────────────────────

  lemma RevivedAt(env: Env, e: Engine, t: Station, s: Station)
    ensures var e' := Revived(env, e, t);
            && SameRun(e, e') && e'.st[s].joined == e.st[s].joined && e'.st[s].alliance == e.st[s].alliance
            && (t == s ==> e'.st[s].enabled && e'.st[s].disabledBy.None?)
            && (t != s ==> e'.st[s] == e.st[s])
  {
    hide MarkFmsEnabled;
  }

  /** An Undisable of `t` brings back `t`, and nobody else. */
  lemma UndisableMark(env: Env, e: Engine, t: Station, byAdmin: bool, s: Station)
    requires Held(e, s, true)
    ensures t != s ==> Held(Undisable(env, e, t, byAdmin), s, true)
    ensures t == s ==> var e' := Undisable(env, e, s, byAdmin);
                       && (e'.st[s].enabled <==> Undisables(env, e, s, byAdmin))
                       && (Marked(e', s) <==> !Undisables(env, e, s, byAdmin))
  {
    hide Broadcast, Undisables, Revived;
    BroadcastsKeep(env);
    RevivedAt(env, e, t, s);
  }

  ghost predicate SameRunAndRoster(e: Engine, e': Engine) { SameRun(e, e') && SameRoster(e, e') }

  lemma UndisableKeeps(env: Env, e: Engine, t: Station, byAdmin: bool)
    ensures SameRunAndRoster(e, Undisable(env, e, t, byAdmin))
  {
    hide Undisables, Revived;
    var e' := Revived(env, e, t);
    forall s: Station ensures SameRun(e, e') && e'.st[s].joined == e.st[s].joined && e'.st[s].alliance == e.st[s].alliance {
      RevivedAt(env, e, t, s);
    }
    RevivedAt(env, e, t, t);
  }

  lemma HeldToo(env: Env, e: Engine, e': Engine, s: Station)
    requires Held(e, s, true) && e'.st == e.st
    ensures Held(e', s, true) && Held(Broadcast(env, e'), s, true)
  {
  }

  lemma HeartbeatMark(env: Env, e: Engine, t: Station, enabled: bool, s: Station)
    requires Held(e, s, true)
    ensures Held(NoteHeartbeat(env, e, t, enabled), s, true)
  {
    hide Broadcast, Undisable, Attached, Held;
    var h := if enabled then e.heard.(enabledSeen := e.heard.enabledSeen + {t}) else e.heard;
    var e' := e.(heard := h.(heartbeat := h.heartbeat[t := env.now]));
    HeldToo(env, e, e', s);
    if e'.st[t].disabledBy == Some(ByDs) {
      NotMarked(e', t, s);
      UndisableMark(env, e', t, false, s);
      HeldToo(env, Undisable(env, e', t, false), Undisable(env, e', t, false), s);
    }
  }

  lemma NotMarked(e: Engine, t: Station, s: Station)
    requires Held(e, s, true) && e.st[t].disabledBy == Some(ByDs)
    ensures t != s
  {
  }

  lemma HeartbeatTurns(env: Env, e: Engine, t: Station, enabled: bool)
    ensures SameRunAndRoster(e, NoteHeartbeat(env, e, t, enabled))
  {
    hide Broadcast, Undisable, SameRunAndRoster, Attached;
    var h := if enabled then e.heard.(enabledSeen := e.heard.enabledSeen + {t}) else e.heard;
    HeartbeatRuns(env, e, e.(heard := h.(heartbeat := h.heartbeat[t := env.now])), t);
  }

  lemma HeartbeatRuns(env: Env, e: Engine, e': Engine, t: Station)
    requires SameRun(e, e') && e'.st == e.st
    ensures SameRunAndRoster(e, e') && SameRunAndRoster(e, Broadcast(env, e'))
    ensures SameRunAndRoster(e, Broadcast(env, Undisable(env, e', t, false)))
  {
    hide Undisable;
    UndisableKeeps(env, e', t, false);
  }

  lemma StoppedMark(env: Env, e: Engine, t: Station, c: Control, s: Station)
    requires Held(e, s, true) && !c.enabled && c.disabledBy == e.st[t].disabledBy
    ensures Held(Broadcast(env, Put(e, t, c)), s, true)
  {
  }

  lemma HonourMark(env: Env, e: Engine, t: Station, status: Status, s: Station)
    requires Held(e, s, true) && LegsWhileRunning(e)
    ensures Held(HonourStatus(env, e, t, status), s,
                 !(Disables(env, e, t, status) && DriverHandsOff(e, t) && HandoffMarks(e, e.st[t].alliance.value, s)))
  {
    hide Broadcast, HandoffFromDisable, LegsWhileRunning, HandoffMarks, DriverHandsOff, HeldDown, Put, ReportsAStop, Takes;
    StoppedMark(env, e, t, e.st[t].(eStop := true, enabled := false), s);
    StoppedMark(env, e, t, e.st[t].(aStop := true, enabled := false), s);
    if t != s {
      DownThenHandoff(env, e, t, ByDs, s);
    }
  }

  lemma StatusMark(env: Env, e: Engine, t: Station, status: Status, s: Station)
    requires Held(e, s, true) && LegsWhileRunning(e)
    ensures Held(DsStatus(env, e, t, status), s,
                 !(PacketDisables(env, e, t, status) && DriverHandsOff(e, t) && HandoffMarks(e, e.st[t].alliance.value, s)))
  {
    hide NoteHeartbeat, HonourStatus, LegsKept, HandoffMarks, Disables, FmsHandoff, Runner;
    var e' := NoteHeartbeat(env, e, t, status.enabled);
    HeartbeatMark(env, e, t, status.enabled, s);
    HeartbeatTurns(env, e, t, status.enabled);
    SameTurns(e, e', t, s);
    RosterKept(e, e');
    assert e'.st[t].alliance == e.st[t].alliance;
    HonourMark(env, e', t, status, s);
  }

  /** The mark does not depend on the phase or on the clock. */
  lemma GoLiveFrom(env: Env, e: Engine, live: Engine, mode: Mode, s: Station)
    requires Held(e, s, true) && live.st == e.st
    requires live.config == e.config && live.tally == e.tally && live.order == e.order
    ensures Held(EnableParticipating(env, live, mode), s, !WaitsForLeg(e, s))
  {
    hide EnableParticipating;
    GoLiveMark(env, live, s, mode);
  }

  lemma ResumeMark(env: Env, e: Engine, s: Station)
    requires Held(e, s, true) && e.phase.Paused?
    ensures Held(CompleteResume(env, e), s, !WaitsForLeg(e, s))
  {
    hide Broadcast, EnableParticipating, WaitsForLeg;
    BroadcastsKeep(env);
    var phase := if e.prePause.Some? then e.prePause.value else Teleop;
    GoLiveFrom(env, e, e.(resuming := false, phase := phase, prePause := None), if phase.Auto? then AutoMode else TeleOpMode, s);
  }

  lemma EnterTeleopMark(env: Env, e: Engine, from: Engine, s: Station)
    requires Held(e, s, true) && from == e.(winner := from.winner, runStartedAt := from.runStartedAt)
    requires e.config.Some?
    ensures Held(EnterTeleop(env, from), s, !WaitsForLeg(e, s))
  {
    hide EnableParticipating, WaitsForLeg;
    GoLiveFrom(env, e, from.(phase := Teleop, clock := Expired(from.clock, from.config.value.teleopDuration)), TeleOpMode, s);
  }

  lemma CountdownMark(env: Env, e: Engine, pick: Alliance, s: Station)
    requires Held(e, s, true) && e.config.Some? && e.phase.Countdown?
    ensures Held(PhaseExpired(env, e, pick), s, !WaitsForLeg(e, s))
  {
    hide EnableParticipating, WaitsForLeg, EnterTeleop, Held;
    var started := e.(runStartedAt := Some(e.clock.total));
    EnterTeleopMark(env, e, started, s);
    GoLiveFrom(env, e, e.(runStartedAt := Some(e.clock.total), phase := Auto,
                          clock := Expired(e.clock, e.config.value.autoDuration)), AutoMode, s);
  }

  lemma HoldMark(e: Engine, held: Engine, s: Station)
    requires Held(e, s, true) && held.st == DisabledAll(e.st)
    ensures Held(held, s, true)
  {
  }

  lemma AutoMark(env: Env, e: Engine, pick: Alliance, s: Station)
    requires Held(e, s, true) && e.config.Some? && e.phase.Auto?
    ensures var c := e.config.value;
            Held(PhaseExpired(env, e, pick), s,
                 c.pauseDuration > 0.0 || c.autoWinner.AskReferee? || !WaitsForLeg(e, s))
  {
    hide WaitsForLeg, EnterTeleop, Held, AutoWinner, DisabledAll;
    var c := e.config.value;
    var held := e.(phase := AutoPause, st := DisabledAll(e.st), clock := Expired(e.clock, c.pauseDuration));
    HoldMark(e, held, s);
    HoldMark(e, held.(clock := StopTick(held.clock)), s);
    EnterTeleopMark(env, e, e.(winner := AutoWinner(c, e.winner, pick)), s);
  }

  lemma LaterMark(env: Env, e: Engine, pick: Alliance, s: Station)
    requires Held(e, s, true) && e.config.Some? && !e.phase.Auto? && !e.phase.Countdown?
    ensures Held(PhaseExpired(env, e, pick), s, !(e.phase.AutoPause? && WaitsForLeg(e, s)))
  {
    hide WaitsForLeg, EnterTeleop, Held, AutoWinner, DisabledAll;
    HoldMark(e, EndByTimer(e), s);
    EnterTeleopMark(env, e, e.(winner := AutoWinner(e.config.value, e.winner, pick)), s);
  }

  lemma ExpiredMark(env: Env, e: Engine, pick: Alliance, s: Station)
    requires Held(e, s, true) && e.config.Some?
    ensures Held(PhaseExpired(env, e, pick), s, !(BoundaryGoesLive(e) && WaitsForLeg(e, s)))
  {
    hide PhaseExpired, WaitsForLeg, Held;
    if e.phase.Countdown? {
      CountdownMark(env, e, pick, s);
    } else if e.phase.Auto? {
      AutoMark(env, e, pick, s);
    } else {
      LaterMark(env, e, pick, s);
    }
  }

  lemma TransitionMark(env: Env, e: Engine, pick: Alliance, s: Station)
    requires Held(e, s, true)
    ensures Held(Transition(env, e, pick), s, !(e.clock.remaining <= 0.0 && BoundaryGoesLive(e) && WaitsForLeg(e, s)))
  {
    hide Broadcast, PhaseExpired, WaitsForLeg;
    BroadcastsKeep(env);
    if e.config.Some? {
      ExpiredMark(env, e, pick, s);
    }
  }

  lemma TickMark(env: Env, e: Engine, pick: Alliance, s: Station)
    requires Held(e, s, true)
    ensures Held(Tick(env, e, pick), s, !(TickGoesLive(e, env.now) && WaitsForLeg(e, s)))
  {
    hide Broadcast, Transition, WaitsForLeg;
    BroadcastsKeep(env);
    AdvanceWaits(e, env.now, s);
    TransitionMark(env, Advanced(e, env.now), pick, s);
  }

  lemma AdvanceWaits(e: Engine, now: int, s: Station)
    ensures WaitsForLeg(Advanced(e, now), s) == WaitsForLeg(e, s)
  {
  }

  lemma ChallengeMark(env: Env, e: Engine, a: Alliance, s: Station)
    requires Held(e, s, true)
    ensures Held(ChallengeFinish(env, e, a), s, !(!FmsHandoff(e.config) && CanFinish(e, a) && OnAlliance(e, s, a)))
  {
    hide RecordFinish, OnAlliance, CanFinish, FmsHandoff;
    FinishMark(env, e, a, RunElapsed(e), ByAdmin, s);
  }

  // ── What every step does to a robot that came out of its e-stop ───

  /** Whether this step is the press of Enable that brings the robot back. */
  predicate Answers(env: Env, e: Engine, op: Op, s: Station) {
    op.DoUndisable? && op.s == s && Undisables(env, e, s, op.byAdmin)
  }

  lemma LegsRun(e: Engine)
    requires Safe(e)
    ensures LegsWhileRunning(e)
  {
  }

  lemma StepHeld(env: Env, e: Engine, op: Op, s: Station)
    requires Held(e, s, true) && LegsWhileRunning(e) && PhasesOk(e) && Possible(e, op) && !(op.DoUndisable? && op.s == s)
    requires !Plain(op)
    ensures Held(Next(env, e, op), s, !Overwrites(env, e, op, s))
  {
    hide LegsKept, LegsWhileRunning, Held, CreateMatch, ClearMatch, StartMatch, CompleteResume, ClearFieldEStop, ClearEStop,
      ClearAllEStops, Disable, Undisable, ChallengeFinish, RelayAdvance, DsStatus, Tick,
      HandoffMarks, DriverHandsOff, PacketDisables, OnAlliance, WaitsForLeg, TickGoesLive, CanFinish, FmsHandoff, Starts;
    match op
    case DoCreate => ResetMark(env, e, s);
    case DoClear => ResetMark(env, e, s);
    case DoStart(gates) => StartMark(env, e, gates, s);
    case ResumeTimer => ResumeMark(env, e, s);
    case DoClearField => ReleaseMark(env, e, s);
    case DoClearEStop(t) => ClearOneMark(env, e, t, s);
    case DoClearAll => ReleaseMark(env, e, s);
    case DoDisable(t, self) => DisableMark(env, e, t, self, s);
    case DoUndisable(t, byAdmin) => UndisableMark(env, e, t, byAdmin, s);
    case DoFinish(a) => ChallengeMark(env, e, a, s);
    case DoRelay(a) => RelayAdvanceMark(env, e, a, s);
    case StatusFrom(t, status) => StatusMark(env, e, t, status, s);
    case TickTimer(pick) => TickMark(env, e, pick, s);
  }

  lemma RelayAdvanceMark(env: Env, e: Engine, a: Alliance, s: Station)
    requires Held(e, s, true) && LegsWhileRunning(e)
    ensures Held(RelayAdvance(env, e, a), s, !HandoffMarks(e, a, s))
  {
    hide RelayAdvance, HandoffMarks, LegsWhileRunning;
    RelayMark(env, e, a, s);
  }

  lemma PlainOverwritesNothing(env: Env, e: Engine, op: Op, s: Station)
    requires Plain(op)
    ensures !Overwrites(env, e, op, s)
  {
  }

  /** In one step, a robot that came out of its e-stop is enabled if and only
      if someone pressed Enable for it and the press was honoured; and it
      keeps its mark if and only if the step is none of those that overwrite
      it. */
  lemma OnlyEnableRevives(env: Env, e: Engine, op: Op, s: Station)
    requires Safe(e) && Possible(e, op) && Marked(e, s)
    ensures Next(env, e, op).st[s].enabled <==> Answers(env, e, op, s)
    ensures Marked(Next(env, e, op), s) <==> !Overwrites(env, e, op, s)
  {
    hide Safe, PhasesOk, Possible, Undisables, Undisable, LegsWhileRunning;
    MarkedIsDown(e, s);
    LegsRun(e);
    SafePhases(e);
    if op.DoUndisable? && op.s == s {
      UndisableMark(env, e, s, op.byAdmin, s);
    } else {
      StepHeldDown(env, e, op, s);
    }
  }

  lemma SafePhases(e: Engine)
    requires Safe(e)
    ensures PhasesOk(e)
  {
  }

  lemma StepHeldDown(env: Env, e: Engine, op: Op, s: Station)
    requires Marked(e, s) && !e.st[s].enabled
    requires LegsWhileRunning(e) && PhasesOk(e) && Possible(e, op) && !(op.DoUndisable? && op.s == s)
    ensures !Next(env, e, op).st[s].enabled
    ensures Marked(Next(env, e, op), s) <==> !Overwrites(env, e, op, s)
  {
    hide Next, Overwrites, LegsWhileRunning, PhasesOk, Possible, Kept, Plain;
    if Plain(op) {
      PlainKept(env, e, op, s);
      KeptHeld(e, Next(env, e, op), s);
      PlainOverwritesNothing(env, e, op, s);
    } else {
      StepHeld(env, e, op, s);
    }
  }

  // ── Lifting an e-stop ─────────────────────────────────────────────

  predicate Releases(op: Op) { op.DoCreate? || op.DoClear? || op.DoClearField? || op.DoClearEStop? || op.DoClearAll? }

  lemma StartStands(env: Env, e: Engine, gates: bool, s: Station)
    ensures Stands(e, StartMatch(env, e, gates), s)
  {
  }

  lemma FinishStands(env: Env, e: Engine, a: Alliance, elapsed: real, cause: Disabler, s: Station)
    ensures Stands(e, RecordFinish(env, e, a, elapsed, cause), s)
  {
    hide EndRunIfEveryoneFinished;
    EveryoneFinishedKept(env, Home(e, a, elapsed, cause), s);
  }

  lemma EnableStationStands(env: Env, e: Engine, t: Station, mode: Mode, s: Station)
    ensures Stands(e, EnableStation(env, e, t, mode), s)
  {
  }

  lemma LegDoneStands(e: Engine, a: Alliance, s: Station)
    ensures Stands(e, LegDone(e, a), s)
  {
    hide Runner, RunElapsed;
  }

  lemma RelayStands(env: Env, e: Engine, a: Alliance, s: Station)
    ensures Stands(e, RelayAdvance(env, e, a), s)
  {
    hide Broadcast, LegDone, RecordFinish, EnableStation, Runner, CanFinish, FmsHandoff, RunElapsed;
    var home := LegDone(e, a);
    LegDoneStands(e, a, s);
    FinishStands(env, home, a, RunElapsed(e), ByRelay, s);
    BroadcastsKeep(env);
    if Runner(home, a).Some? {
      EnableStationStands(env, home, Runner(home, a).value, TeleOpMode, s);
    }
  }

  lemma HandoffStands(env: Env, e: Engine, t: Station, s: Station)
    ensures Stands(e, HandoffFromDisable(env, e, t), s)
  {
    hide RelayAdvance, FmsHandoff, Runner;
    if e.st[t].alliance.Some? {
      RelayStands(env, e, e.st[t].alliance.value, s);
    }
  }

  lemma DownHandoffStands(env: Env, e: Engine, t: Station, cause: Disabler, s: Station)
    ensures Stands(e, Broadcast(env, HeldDown(e, t, cause)), s)
    ensures Stands(e, HandoffFromDisable(env, Broadcast(env, HeldDown(e, t, cause)), t), s)
  {
    hide Broadcast, HandoffFromDisable;
    BroadcastsKeep(env);
    HandoffStands(env, Broadcast(env, HeldDown(e, t, cause)), t, s);
  }

  lemma UndisableStands(env: Env, e: Engine, t: Station, byAdmin: bool, s: Station)
    ensures Stands(e, Undisable(env, e, t, byAdmin), s)
  {
    hide Broadcast, Undisables, Revived;
    BroadcastsKeep(env);
    RevivedAt(env, e, t, s);
    RevivedStops(env, e, t, s);
  }

  lemma RevivedStops(env: Env, e: Engine, t: Station, s: Station)
    ensures Revived(env, e, t).st[s].eStop == e.st[s].eStop
  {
  }

  lemma HeartbeatStands(env: Env, e: Engine, t: Station, enabled: bool, s: Station)
    ensures Stands(e, NoteHeartbeat(env, e, t, enabled), s)
  {
    hide Broadcast, Undisable, Attached;
    var h := if enabled then e.heard.(enabledSeen := e.heard.enabledSeen + {t}) else e.heard;
    BroadcastsKeep(env);
    UndisableStands(env, e.(heard := h.(heartbeat := h.heartbeat[t := env.now])), t, false, s);
  }

  lemma HonourStands(env: Env, e: Engine, t: Station, status: Status, s: Station)
    ensures Stands(e, HonourStatus(env, e, t, status), s)
  {
    hide Broadcast, HandoffFromDisable, HeldDown, DriverDisabled, ReportsAStop, ReportsEStop, Put, Stands;
    DownHandoffStands(env, e, t, ByDs, s);
    PutStands(env, e, t, e.st[t].(eStop := true, enabled := false), s);
    PutStands(env, e, t, e.st[t].(aStop := true, enabled := false), s);
    HoldStands(e, e, s);
  }

  lemma PutStands(env: Env, e: Engine, t: Station, c: Control, s: Station)
    requires e.st[t].eStop ==> c.eStop
    ensures Stands(e, Broadcast(env, Put(e, t, c)), s)
  {
  }

  lemma StatusStands(env: Env, e: Engine, t: Station, status: Status, s: Station)
    ensures Stands(e, DsStatus(env, e, t, status), s)
  {
    hide NoteHeartbeat, HonourStatus;
    HeartbeatStands(env, e, t, status.enabled, s);
    HonourStands(env, NoteHeartbeat(env, e, t, status.enabled), t, status, s);
  }

  lemma GoLiveStands(env: Env, e: Engine, live: Engine, mode: Mode, s: Station)
    requires live.st == e.st && live.latch == e.latch
    ensures Stands(e, EnableParticipating(env, live, mode), s)
  {
    hide EnableParticipating, Participating, AStopsReleased;
    ParticipatingAt(env, live, s, mode);
    ParticipatingRest(env, live, mode);
    ParticipatingKeeps(env, AStopsReleased(live, mode), s, mode);
    ReleaseAt(live, s, mode);
  }

  lemma ResumeStands(env: Env, e: Engine, s: Station)
    ensures Stands(e, CompleteResume(env, e), s)
  {
    hide Broadcast, EnableParticipating;
    BroadcastsKeep(env);
    var phase := if e.prePause.Some? then e.prePause.value else Teleop;
    GoLiveStands(env, e, e.(resuming := false, phase := phase, prePause := None), if phase.Auto? then AutoMode else TeleOpMode, s);
  }

  lemma EnterTeleopStands(env: Env, e: Engine, from: Engine, s: Station)
    requires from.st == e.st && from.latch == e.latch && from.config.Some?
    ensures Stands(e, EnterTeleop(env, from), s)
  {
    hide EnableParticipating;
    GoLiveStands(env, e, from.(phase := Teleop, clock := Expired(from.clock, from.config.value.teleopDuration)), TeleOpMode, s);
  }

  lemma ExpiredStands(env: Env, e: Engine, pick: Alliance, s: Station)
    requires e.config.Some?
    ensures Stands(e, PhaseExpired(env, e, pick), s)
  {
    hide EnableParticipating, EnterTeleop, AutoWinner, Stands;
    var c := e.config.value;
    EnterTeleopStands(env, e, e.(runStartedAt := Some(e.clock.total)), s);
    EnterTeleopStands(env, e, e.(winner := AutoWinner(c, e.winner, pick)), s);
    GoLiveStands(env, e, e.(runStartedAt := Some(e.clock.total), phase := Auto, clock := Expired(e.clock, c.autoDuration)), AutoMode, s);
    HoldStands(e, EndByTimer(e), s);
    HoldStands(e, e, s);
    var held := e.(phase := AutoPause, st := DisabledAll(e.st), clock := Expired(e.clock, c.pauseDuration));
    HoldStands(e, held, s);
    HoldStands(e, held.(clock := StopTick(held.clock)), s);
  }

  lemma HoldStands(e: Engine, held: Engine, s: Station)
    requires held.latch == e.latch && (held.st == e.st || held.st == DisabledAll(e.st))
    ensures Stands(e, held, s)
  {
  }

  lemma TickStands(env: Env, e: Engine, pick: Alliance, s: Station)
    ensures Stands(e, Tick(env, e, pick), s)
  {
    hide Broadcast, Transition;
    BroadcastsKeep(env);
    TransitionStands(env, Advanced(e, env.now), pick, s);
  }

  lemma TransitionStands(env: Env, e: Engine, pick: Alliance, s: Station)
    ensures Stands(e, Transition(env, e, pick), s)
  {
    hide Broadcast, PhaseExpired;
    BroadcastsKeep(env);
    if e.config.Some? {
      ExpiredStands(env, e, pick, s);
    }
  }

  lemma DisableStands(env: Env, e: Engine, t: Station, self: bool, s: Station)
    ensures Stands(e, Disable(env, e, t, self), s)
  {
    hide Broadcast, HandoffFromDisable, HeldDown;
    DownHandoffStands(env, e, t, if self then BySelf else ByAdmin, s);
  }

  lemma StepStands(env: Env, e: Engine, op: Op, s: Station)
    requires !Releases(op) && !Plain(op)
    ensures Stands(e, Next(env, e, op), s)
  {
    hide Stands, StartMatch, CompleteResume, Disable, Undisable, ChallengeFinish, RelayAdvance, DsStatus, Tick;
    match op
    case DoStart(gates) => StartStands(env, e, gates, s);
    case ResumeTimer => ResumeStands(env, e, s);
    case DoFinish(a) => ChallengeStands(env, e, a, s);
    case DoRelay(a) => RelayStands(env, e, a, s);
    case StatusFrom(t, status) => StatusStands(env, e, t, status, s);
    case TickTimer(pick) => TickStands(env, e, pick, s);
    case DoDisable(t, self) => DisableStands(env, e, t, self, s);
    case DoUndisable(t, byAdmin) => UndisableStands(env, e, t, byAdmin, s);
  }

  lemma ChallengeStands(env: Env, e: Engine, a: Alliance, s: Station)
    ensures Stands(e, ChallengeFinish(env, e, a), s)
  {
    hide RecordFinish;
    FinishStands(env, e, a, RunElapsed(e), ByAdmin, s);
  }

  /** No step but a Clear, a new match or the clearing of the old one lifts an
      e-stop. */
  lemma OnlyReleasesLift(env: Env, e: Engine, op: Op, s: Station)
    requires EStopped(e, s) && !EStopped(Next(env, e, op), s)
    ensures Releases(op)
  {
    hide Next, Plain, Releases;
    if !Releases(op) {
      if Plain(op) {
        PlainKept(env, e, op, s);
      } else {
        StepStands(env, e, op, s);
      }
    }
  }

  /** Out of its e-stop in a match, and so marked. */
  predicate ComesOutMarked(e: Engine, e': Engine, s: Station) {
    EStopped(e, s) && !EStopped(e', s) && e'.st[s].joined && Active(e'.phase) ==> Marked(e', s) && !e'.st[s].enabled
  }

  lemma LiftingMarks(env: Env, e: Engine, e': Engine, s: Station)
    ensures ComesOutMarked(e, Broadcast(env, Lifting(e, e')), s) && ComesOutMarked(e, e, s)
  {
  }

  lemma ClearMarks(env: Env, e: Engine, t: Station, s: Station)
    ensures ComesOutMarked(e, ClearFieldEStop(env, e), s) && ComesOutMarked(e, ClearAllEStops(env, e), s)
    ensures ComesOutMarked(e, ClearEStop(env, e, t), s)
  {
    hide Broadcast, Lifting, ComesOutMarked;
    LiftingMarks(env, e, e.(latch := false), s);
    LiftingMarks(env, e, e.(latch := false, st := map x: Station | x in e.st :: e.st[x].(eStop := false)), s);
    LiftingMarks(env, e, Put(e, t, e.st[t].(eStop := false)), s);
  }

  lemma ResetJoinsNobody(env: Env, e: Engine, s: Station)
    ensures ComesOutMarked(e, CreateMatch(env, e), s) && ComesOutMarked(e, ClearMatch(env, e), s)
  {
    hide Broadcast;
    BroadcastsKeep(env);
  }

  /** A joined station whose e-stop lifts while a match is on comes out of it
      disabled and marked. */
  lemma LiftedIsMarked(env: Env, e: Engine, op: Op, s: Station)
    requires EStopped(e, s) && !EStopped(Next(env, e, op), s)
    requires Next(env, e, op).st[s].joined && Active(Next(env, e, op).phase)
    ensures Marked(Next(env, e, op), s) && !Next(env, e, op).st[s].enabled
  {
    hide Marked, CreateMatch, ClearMatch, ClearFieldEStop, ClearEStop, ClearAllEStops;
    OnlyReleasesLift(env, e, op, s);
    ResetJoinsNobody(env, e, s);
    ClearMarks(env, e, if op.DoClearEStop? then op.s else s, s);
  }

  // ── Whole runs ────────────────────────────────────────────────────

  ghost predicate Untouched(e: Engine, steps: seq<Step>, s: Station) {
    forall i: nat | i < |steps| :: !Overwrites(steps[i].env, Run(e, steps[..i]), steps[i].op, s)
  }

  /** Through every later phase change, pause and resume, whatever the order,
      the robot stays down as long as no step overwrites its mark. */
  lemma {:induction false} StaysDownUntilEnabled(e: Engine, steps: seq<Step>, s: Station)
    requires Safe(e) && Runs(e, steps) && Marked(e, s) && Untouched(e, steps, s)
    ensures Marked(Run(e, steps), s) && !Run(e, steps).st[s].enabled
  {
    hide Next, Possible, Overwrites, Safe, Marked;
    if steps == [] {
      MarkedIsDown(e, s);
    } else {
      var last := steps[|steps| - 1];
      var before := steps[..|steps| - 1];
      forall i: nat | i < |before| ensures !Overwrites(before[i].env, Run(e, before[..i]), before[i].op, s) {
        assert before[..i] == steps[..i];
      }
      StaysDownUntilEnabled(e, before, s);
      RunSafe(e, before);
      RunSafe(e, steps);
      OnlyEnableRevives(last.env, Run(e, before), last.op, s);
      MarkedIsDown(Run(e, steps), s);
    }
  }

  /** A run is its first steps, and then the next. */
  lemma {:induction false} RunAt(e: Engine, steps: seq<Step>, i: nat)
    requires Runs(e, steps) && i < |steps|
    ensures Runs(e, steps[..i]) && Possible(Run(e, steps[..i]), steps[i].op)
    ensures Run(e, steps[..i + 1]) == Next(steps[i].env, Run(e, steps[..i]), steps[i].op)
  {
    hide Next, Possible;
    var n := |steps| - 1;
    if i < n {
      RunAt(e, steps[..n], i);
      assert steps[..n][..i] == steps[..i] && steps[..n][..i + 1] == steps[..i + 1];
    } else {
      assert steps[..i + 1] == steps && steps[..i + 1][..i] == steps[..i];
    }
  }

  /** In every run: the mark is there after each step if and only if no step
      of the run overwrites it. */
  lemma MarkKeptIff(e: Engine, steps: seq<Step>, s: Station)
    requires Safe(e) && Runs(e, steps) && Marked(e, s)
    ensures (forall i: nat | i <= |steps| :: Marked(Run(e, steps[..i]), s)) <==> Untouched(e, steps, s)
  {
    hide Next, Possible, Overwrites, Safe, Marked, Run, Runs, Answers;
    if forall i: nat | i <= |steps| :: Marked(Run(e, steps[..i]), s) {
      forall i: nat | i < |steps| ensures !Overwrites(steps[i].env, Run(e, steps[..i]), steps[i].op, s) {
        RunAt(e, steps, i);
        RunSafe(e, steps[..i]);
        OnlyEnableRevives(steps[i].env, Run(e, steps[..i]), steps[i].op, s);
        assert Marked(Run(e, steps[..i + 1]), s);
      }
    } else {
      var i: nat :| i <= |steps| && !Marked(Run(e, steps[..i]), s);
      if Untouched(e, steps, s) {
        PrefixRuns(e, steps, i);
        forall j: nat | j < i ensures !Overwrites(steps[..i][j].env, Run(e, steps[..i][..j]), steps[..i][j].op, s) {
          assert steps[..i][..j] == steps[..j];
        }
        StaysDownUntilEnabled(e, steps[..i], s);
      }
    }
  }

  lemma PrefixRuns(e: Engine, steps: seq<Step>, i: nat)
    requires Runs(e, steps) && i <= |steps|
    ensures Runs(e, steps[..i])
  {
    hide Next, Possible, Runs;
    if i < |steps| {
      RunAt(e, steps, i);
    } else {
      assert steps[..i] == steps;
    }
  }

  /** Nothing but its mark, if any, keeps the robot from running. */
  predicate FreeToRun(env: Env, e: Engine, s: Station) {
    && e.st[s].joined && !EStopped(e, s) && !e.st[s].aStop && s !in env.forbidden
    && !Finished(e, e.st[s].alliance) && !FmsHandoff(e.config)
  }

  lemma SelfDisabled(env: Env, e: Engine, s: Station)
    requires !e.st[s].enabled && FreeToRun(env, e, s)
    ensures var e' := Disable(env, e, s, true);
            FreeToRun(env, e', s) && e'.st[s].disabledBy == Some(BySelf) && !e'.st[s].enabled && e'.phase == e.phase
  {
  }

  lemma PausedAndCounting(env: Env, e: Engine, s: Station)
    requires FreeToRun(env, e, s) && Running(e.phase)
    ensures var e' := ResumeMatch(env, PauseMatch(env, e));
            && FreeToRun(env, e', s) && e'.st[s].disabledBy == e.st[s].disabledBy && e'.phase.Paused?
            && e'.prePause == Some(e.phase)
  {
    hide Broadcast;
    var paused := OnHold(e);
    BroadcastKeeps(env, paused);
    BroadcastKeeps(env, Broadcast(env, paused).(resuming := true));
  }

  lemma ResumeBrings(env: Env, e: Engine, s: Station)
    requires FreeToRun(env, e, s) && e.phase.Paused? && e.prePause.Some? && !Marked(e, s)
    ensures CompleteResume(env, e).st[s].enabled
  {
    hide Broadcast, EnableParticipating, Participating, AStopsReleased;
    var phase := e.prePause.value;
    var mode := if phase.Auto? then AutoMode else TeleOpMode;
    var back := e.(resuming := false, phase := phase, prePause := None);
    BroadcastsKeep(env);
    ParticipatingAt(env, back, s, mode);
    ReleaseAt(back, s, mode);
    FreeParticipates(env, AStopsReleased(back, mode), s, mode);
  }

  lemma FreeParticipates(env: Env, e: Engine, s: Station, mode: Mode)
    requires FreeToRun(env, e, s) && !Marked(e, s)
    ensures Participating(env, e, s, mode).enabled
  {
  }

  /** The mark can go without Enable: a robot that came out of its e-stop,
      and that its team then disables, comes back with the next resume. */
  lemma SelfDisableLosesMark(env: Env, e: Engine, s: Station)
    requires Safe(e) && Marked(e, s) && Running(e.phase) && FreeToRun(env, e, s)
    ensures CompleteResume(env, ResumeMatch(env, PauseMatch(env, Disable(env, e, s, true)))).st[s].enabled
  {
    hide Disable, PauseMatch, ResumeMatch, CompleteResume, FreeToRun, Safe;
    MarkedIsDown(e, s);
    SelfDisabled(env, e, s);
    PausedAndCounting(env, Disable(env, e, s, true), s);
    ResumeBrings(env, ResumeMatch(env, PauseMatch(env, Disable(env, e, s, true))), s);
  }
}
