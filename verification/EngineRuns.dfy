/** Runs of the engine from its start: one that brings a robot back without
    Enable, and those that begin with the stops of the run before. */
module EngineRuns {
  import opened Field
  import opened EngineState
  import opened EngineSafety
  import opened EngineMark
  import opened EngineStops
  import opened EngineClock

  lemma Then(e: Engine, steps: seq<Step>, step: Step)
    ensures Run(e, steps + [step]) == Next(step.env, Run(e, steps), step.op)
    ensures Runs(e, steps + [step]) <==> Runs(e, steps) && Possible(Run(e, steps), step.op)
  {
    hide Next, Possible;
    assert (steps + [step])[..|steps|] == steps;
  }

  lemma ThenTwo(e: Engine, steps: seq<Step>, a: Step, b: Step)
    ensures var mid := Next(a.env, Run(e, steps), a.op);
      && Run(e, steps + [a, b]) == Next(b.env, mid, b.op)
      && (Runs(e, steps) && Possible(Run(e, steps), a.op) && Possible(mid, b.op) ==> Runs(e, steps + [a, b]))
  {
    hide Next, Possible, Run, Runs;
    assert steps + [a, b] == (steps + [a]) + [b];
    Then(e, steps, a);
    Then(e, steps + [a], b);
  }

  // ── An e-stop come out of, and lost sight of ──────────────────────

  /** Station `s` is in an official match in `phase`, with nothing to stop it. */
  ghost predicate Playing(e: Engine, s: Station, phase: Phase) {
    && e.phase == phase && e.config == Some(OFFICIAL) && !e.latch && !e.resuming && e.tally[Red] == NO_TALLY
    && e.st[s].joined && e.st[s].alliance == Some(Red) && !e.st[s].eStop && !e.st[s].aStop
  }

  lemma Created(world: Env, e: Engine, s: Station)
    requires Fresh(e) && !e.latch
    ensures var e' := Next(world, e, DoCreate);
      && e'.phase.Created? && e'.pending == OFFICIAL && !e'.latch && !e'.resuming && e'.winner.None? && !e'.clock.ticking
      && (forall t: Station :: !e'.st[t].joined) && e'.st[s] == NewControl(e.st[s])
  {
    hide Broadcast;
    BroadcastKeeps(world, SetUp(e));
  }

  lemma NobodyJoined(e: Engine, a: Alliance, slots: seq<Station>)
    requires forall t: Station :: !e.st[t].joined
    ensures JoinedOf(e, a, slots) == []
  {
  }

  lemma Seated(world: Env, e: Engine, s: Station)
    requires e.phase.Created? && !e.resuming && forall t: Station :: !e.st[t].joined
    ensures var e' := Next(world, e, DoJoin(s, Red));
      e' == e.(st := e.st[s := e.st[s].(joined := true, alliance := Some(Red))], stops := e'.stops)
  {
    hide Broadcast;
    NobodyJoined(e, Red, STATIONS);
    BroadcastKeeps(world, Put(e, s, e.st[s].(joined := true, alliance := Some(Red))));
  }

  lemma CountingDown(world: Env, e: Engine, s: Station)
    requires e.phase.Created? && e.pending == OFFICIAL && !e.latch && !e.resuming
    requires e.st[s] == FRESH.(joined := true, alliance := Some(Red), mode := e.st[s].mode)
    ensures var e' := Next(world, e, DoStart(true));
      && Playing(e', s, Countdown) && e'.clock.ticking && e'.clock.lastTick == world.now && e'.clock.remaining == COUNTDOWN_SECONDS
  {
    hide Broadcast, JoinedOf;
    BroadcastKeeps(world, Started(world, e));
  }

  lemma GoesLiveInAuto(world: Env, e: Engine, s: Station)
    requires Playing(e, s, Countdown) && e.clock.ticking && e.clock.remaining == COUNTDOWN_SECONDS && world.now == e.clock.lastTick + 3_000
    ensures Playing(Tick(world, e, Red), s, Auto)
  {
    hide Broadcast, EnableParticipating, Participating, AStopsReleased;
    var late := Advanced(e, world.now);
    var live := late.(runStartedAt := Some(late.clock.total), phase := Auto, clock := Expired(late.clock, OFFICIAL.autoDuration));
    ParticipatingRest(world, live, AutoMode);
    ParticipatingAt(world, live, s, AutoMode);
    ReleaseAt(live, s, AutoMode);
    StaysFree(world, AStopsReleased(live, AutoMode), s);
    BroadcastKeeps(world, EnableParticipating(world, live, AutoMode));
  }

  lemma StaysFree(world: Env, e: Engine, s: Station)
    ensures var c := Participating(world, e, s, AutoMode);
      c.joined == e.st[s].joined && c.alliance == e.st[s].alliance && c.eStop == e.st[s].eStop && c.aStop == e.st[s].aStop
  {
  }

  /** `s` has been e-stopped, and waits for nothing. */
  ghost predicate InItsStop(e: Engine, s: Station) {
    Playing(e.(st := e.st[s := e.st[s].(eStop := false)]), s, Auto) && e.st[s].eStop && s !in e.stops.waits
  }

  lemma Stopped(world: Env, e: Engine, s: Station)
    requires Playing(e, s, Auto)
    ensures InItsStop(StationEStop(world, e, s), s)
  {
    hide Broadcast;
    var pressed := Put(e, s, e.st[s].(eStop := true, enabled := false));
    BroadcastAt(world, pressed, s);
    BroadcastKeeps(world, pressed);
  }

  ghost predicate OutOfIt(e: Engine, s: Station) { Playing(e, s, Auto) && Marked(e, s) }

  lemma Cleared(world: Env, e: Engine, s: Station)
    requires InItsStop(e, s)
    ensures OutOfIt(ClearEStop(world, e, s), s)
  {
    hide Broadcast;
    BroadcastKeeps(world, Lifting(e, Put(e, s, e.st[s].(eStop := false))));
  }

  lemma NextStopped(world: Env, e: Engine, s: Station)
    requires Playing(e, s, Auto)
    ensures InItsStop(Next(world, e, DoEStop(s)), s)
  {
    hide StationEStop, InItsStop;
    Stopped(world, e, s);
  }

  lemma NextCleared(world: Env, e: Engine, s: Station)
    requires InItsStop(e, s)
    ensures OutOfIt(Next(world, e, DoClearEStop(s)), s)
  {
    hide ClearEStop, InItsStop, OutOfIt;
    Cleared(world, e, s);
  }

  lemma AnyTime(e: Engine, op: Op)
    requires !op.TickTimer? && !op.ResumeTimer?
    ensures Possible(e, op)
  {
  }

  function After(world: Env, millis: nat): Env { world.(now := world.now + millis) }

  /** A lone team joins, the match goes live, it is e-stopped and cleared. */
  function Opening(world: Env, s: Station): seq<Step> {
    [Step(world, DoCreate), Step(world, DoJoin(s, Red)), Step(world, DoStart(true)), Step(After(world, 3_000), TickTimer(Red)),
     Step(After(world, 3_000), DoEStop(s)), Step(After(world, 3_000), DoClearEStop(s))]
  }

  /** It disables its own robot, and the match is paused and resumed. */
  function Closing(world: Env, s: Station): seq<Step> {
    [Step(After(world, 3_000), DoDisable(s, true)), Step(After(world, 3_000), DoPause), Step(After(world, 3_000), DoResume),
     Step(After(world, 3_000), ResumeTimer)]
  }

  lemma OpeningRuns(world: Env, e: Engine, s: Station)
    requires Fresh(e) && !e.latch
    ensures var steps := Opening(world, s);
      Runs(e, steps) && Playing(Run(e, steps), s, Auto) && Marked(Run(e, steps), s)
  {
    hide Next, Playing, Marked, Fresh, Run, Runs, Possible, InItsStop;
    var steps, later := Opening(world, s), After(world, 3_000);
    NothingRun(e);
    ThenTwo(e, [], steps[0], steps[1]);
    ThenTwo(e, [steps[0], steps[1]], steps[2], steps[3]);
    ThenTwo(e, [steps[0], steps[1], steps[2], steps[3]], steps[4], steps[5]);
    InPairs(steps[0], steps[1], steps[2], steps[3], steps[4], steps[5]);
    var live := Run(e, [steps[0], steps[1], steps[2], steps[3]]);
    Opened(world, e, s);
    AnyTime(e, DoCreate);
    AnyTime(Next(world, e, DoCreate), DoJoin(s, Red));
    AnyTime(Next(world, Next(world, e, DoCreate), DoJoin(s, Red)), DoStart(true));
    AnyTime(live, DoEStop(s));
    AnyTime(Next(later, live, DoEStop(s)), DoClearEStop(s));
    NextStopped(later, live, s);
    NextCleared(later, Next(later, live, DoEStop(s)), s);
  }

  lemma InPairs(a: Step, b: Step, c: Step, d: Step, f: Step, g: Step)
    ensures [] + [a, b] == [a, b] && [a, b] + [c, d] == [a, b, c, d] && [a, b, c, d] + [f, g] == [a, b, c, d, f, g]
  {
  }

  lemma NothingRun(e: Engine)
    ensures Run(e, []) == e && Runs(e, [])
  {
    hide Next, Possible;
  }

  /** The first four steps, one after the other. */
  lemma Opened(world: Env, e: Engine, s: Station)
    requires Fresh(e) && !e.latch
    ensures var started := Next(world, Next(world, Next(world, e, DoCreate), DoJoin(s, Red)), DoStart(true));
      && Possible(started, TickTimer(Red)) && Playing(Next(After(world, 3_000), started, TickTimer(Red)), s, Auto)
  {
    hide Next, Fresh;
    var created := Next(world, e, DoCreate);
    var seated := Next(world, created, DoJoin(s, Red));
    Created(world, e, s);
    Seated(world, created, s);
    FreshSeat(e, s);
    CountingDown(world, seated, s);
    var started := Next(world, seated, DoStart(true));
    GoesLiveInAuto(After(world, 3_000), started, s);
    NextIsTick(After(world, 3_000), started, TickTimer(Red));
  }

  lemma FreshSeat(e: Engine, s: Station)
    requires Fresh(e)
    ensures NewControl(e.st[s]) == FRESH
  {
  }

  lemma InOrder(world: Env, s: Station)
    ensures var steps := Opening(world, s) + Closing(world, s);
      Ordered(steps, world.now) && (forall step | step in steps :: !step.op.DoUndisable?)
  {
  }

  lemma ClosingRuns(world: Env, e: Engine, opening: seq<Step>, s: Station)
    requires Runs(e, opening) && Safe(Run(e, opening)) && Marked(Run(e, opening), s) && Playing(Run(e, opening), s, Auto)
    requires s !in world.forbidden
    ensures Runs(e, opening + Closing(world, s)) && Run(e, opening + Closing(world, s)).st[s].enabled
  {
    hide Next, Playing, Marked, Run, Runs, Safe;
    var closing, later := Closing(world, s), After(world, 3_000);
    ThenTwo(e, opening, closing[0], closing[1]);
    ThenTwo(e, opening + [closing[0], closing[1]], closing[2], closing[3]);
    Assoc(opening, [closing[0], closing[1]], [closing[2], closing[3]]);
    assert [closing[0], closing[1]] + [closing[2], closing[3]] == closing;
    Closed(later, Run(e, opening), s);
  }

  /** A run from the start that ends with the robot enabled after its e-stop,
      and nobody pressed Enable. */
  lemma ComesBackUnasked(world: Env, e: Engine, s: Station)
    requires Fresh(e) && !e.latch && s !in world.forbidden
    ensures var steps := Opening(world, s) + Closing(world, s);
      && Runs(e, steps) && Ordered(steps, world.now) && (forall step | step in steps :: !step.op.DoUndisable?)
      && Marked(Run(e, Opening(world, s)), s) && Run(e, steps).st[s].enabled
  {
    hide Playing, Marked, Fresh, Run, Runs, Safe, Opening, Closing, Ordered;
    OpeningRuns(world, e, s);
    FreshSafe(e);
    RunSafe(e, Opening(world, s));
    ClosingRuns(world, e, Opening(world, s), s);
    InOrder(world, s);
  }

  lemma Closed(world: Env, e: Engine, s: Station)
    requires Safe(e) && Marked(e, s) && Playing(e, s, Auto) && s !in world.forbidden
    ensures var resuming := Next(world, Next(world, Next(world, e, DoDisable(s, true)), DoPause), DoResume);
      Possible(resuming, ResumeTimer) && Next(world, resuming, ResumeTimer).st[s].enabled
  {
    hide Next, Safe, FreeToRun;
    MarkedIsDown(e, s);
    PlayingIsFree(world, e, s);
    var disabled := Next(world, e, DoDisable(s, true));
    var paused := Next(world, disabled, DoPause);
    ByItself(world, e, s);
    OnPause(world, disabled, s);
    Resuming(world, paused, s);
    BackUp(world, Next(world, paused, DoResume), s);
  }

  lemma PlayingIsFree(world: Env, e: Engine, s: Station)
    requires Playing(e, s, Auto) && s !in world.forbidden
    ensures FreeToRun(world, e, s)
  {
  }

  lemma ByItself(world: Env, e: Engine, s: Station)
    requires FreeToRun(world, e, s) && !e.st[s].enabled
    ensures var e' := Next(world, e, DoDisable(s, true));
      FreeToRun(world, e', s) && e'.st[s].disabledBy == Some(BySelf) && e'.phase == e.phase && e'.resuming == e.resuming
  {
    hide Broadcast;
    BroadcastKeeps(world, HeldDown(e, s, BySelf));
  }

  lemma OnPause(world: Env, e: Engine, s: Station)
    requires FreeToRun(world, e, s) && Running(e.phase) && !e.resuming
    ensures var e' := Next(world, e, DoPause);
      && FreeToRun(world, e', s) && e'.st[s].disabledBy == e.st[s].disabledBy && e'.phase.Paused? && e'.prePause == Some(e.phase)
      && !e'.resuming
  {
    hide Broadcast;
    BroadcastKeeps(world, OnHold(e));
  }

  lemma Resuming(world: Env, e: Engine, s: Station)
    requires e.phase.Paused? && !e.resuming
    ensures var e' := Next(world, e, DoResume); e' == e.(resuming := true, stops := e'.stops) && Possible(e', ResumeTimer)
    ensures FreeToRun(world, e, s) ==> FreeToRun(world, Next(world, e, DoResume), s)
  {
    hide Broadcast;
    BroadcastKeeps(world, e.(resuming := true));
  }

  lemma BackUp(world: Env, e: Engine, s: Station)
    requires e.phase.Paused? && e.prePause.Some? && !Marked(e, s) && FreeToRun(world, e, s)
    ensures Next(world, e, ResumeTimer).st[s].enabled
  {
    hide CompleteResume, FreeToRun, Marked;
    ResumeBrings(world, e, s);
  }

  // ── The stops of the run before ───────────────────────────────────

  /** A restart begins inside every invariant, whatever stops it takes up. */
  lemma RestartBegins(env: Env, e: Engine, saved: Option<SavedStops>)
    requires Fresh(e) && e.clock.lastTick <= env.now
    ensures var e' := TrackStops(env, e, saved); Safe(e') && Settled(e') && Clocked(e', env.now)
  {
    hide Broadcast, Clocked, Settled;
    var restored := if saved.Some? then Restored(e, saved.value, env.now) else e;
    FreshBroadcastSettles(env, restored);
    BroadcastKeeps(env, restored);
    FreshSafe(e);
    FreshClocked(e, env.now);
    SameOrOverClocked(e, TrackStops(env, e, saved), env.now, env.now);
  }

  /** Each stop taken up begins its wait over, if a team is on the slot. */
  lemma RestoredWaits(env: Env, e: Engine, saved: SavedStops, s: Station)
    requires Fresh(e) && (saved.field || (s in saved.stations && saved.stations[s])) && s in env.teamed
    ensures var e' := TrackStops(env, e, Some(saved));
      && OutStopped(e', s) && s in e'.stops.since && e'.stops.since[s] == env.now
      && (s in e'.stops.waits <==> !DsStopped(e', s, env.now, env.now))
      && e'.stops.silenceFrom == env.now + RESTORED_STOP_QUIET_MS - DS_CONTROL_QUIET_MS
  {
    hide Broadcast, DsStopped;
    var restored := Restored(e, saved, env.now);
    BroadcastAt(env, restored, s);
    SameEvidence(restored, Broadcast(env, restored), s, env.now, env.now);
  }

  /** A stop that waits, waits until there is evidence. */
  lemma {:induction false} WaitsOn(e: Engine, steps: seq<Step>, s: Station, since: int)
    requires Settled(e) && Safe(e) && Runs(e, steps) && s in e.stops.since && e.stops.since[s] == since && s in e.stops.waits
    requires forall i: nat | i <= |steps| :: OutStopped(Run(e, steps[..i]), s)
    ensures var r := Run(e, steps);
      && s in r.stops.since && r.stops.since[s] == since && r.stops.silenceFrom == e.stops.silenceFrom
      && (s in r.stops.waits || exists k: nat :: EvidenceAt(e, steps, s, since, k))
  {
    hide Next, Possible, Safe, Settled, DsStopped, OutStopped, WaitStep, EvidenceAt;
    if steps != [] {
      var n := |steps| - 1;
      var before, last := steps[..n], steps[n];
      forall i: nat | i <= n ensures OutStopped(Run(e, before[..i]), s) {
        assert before[..i] == steps[..i];
      }
      WaitsOn(e, before, s, since);
      RunSettles(e, before);
      RunSafe(e, before);
      OnlyResumesPaused(Run(e, before));
      NextSettles(last.env, Run(e, before), last.op, s);
      SilenceStays(last.env, Run(e, before), last.op);
      assert steps[..n + 1] == steps;
      WaitGoes(last.env, Run(e, before), last.op, s);
      NowEvidence(e, steps, s, since);
      if s !in Run(e, steps).stops.waits && !DsStopped(Run(e, steps), s, since, last.env.now) {
        var k: nat :| EvidenceAt(e, before, s, since, k);
        StillEvidence(e, steps, s, since, k);
      }
    }
  }

  /** The Driver Station was seen: showing Disabled since `since`, or under
      field control. */
  ghost predicate Seen(e: Engine, s: Station, since: int, now: int) {
    || (s in e.heard.control && e.heard.control[s].enabled == Some(false) && e.heard.control[s].at >= since - STOP_SEEN_SLACK_MS)
    || (!(s in e.heard.control && e.heard.control[s].enabled == Some(true)) && Attached(e, s, now))
  }

  lemma SilenceIsNotEnough(e: Engine, s: Station, since: int, now: int)
    requires DsStopped(e, s, since, now) && now < e.stops.silenceFrom + DS_CONTROL_QUIET_MS
    ensures Seen(e, s, since, now)
  {
  }

  /** A Clear at this point, in this way, lifts the e-stop of `s`. */
  ghost predicate ClearLifts(world: Env, e: Engine, op: Op, s: Station) {
    (op.DoClearEStop? || op.DoClearField? || op.DoClearAll?) && !EStopped(Next(world, e, op), s)
  }

  lemma NotWhileWaiting(world: Env, e: Engine, op: Op, s: Station)
    requires OutStopped(e, s) && ClearLifts(world, e, op, s)
    ensures s !in e.stops.waits
  {
    hide Next, EStopped, OutStopped;
    if s in e.stops.waits {
      WaitingIsNotCleared(world, e, op, s);
    }
  }

  /** For ten seconds after a restart nothing but sight of its Driver Station
      lets a restored e-stop of a team's robot be cleared: silence does not. */
  lemma RestoredNeedsSight(env: Env, e: Engine, saved: SavedStops, s: Station, steps: seq<Step>, later: Env, op: Op)
    requires Fresh(e) && (saved.field || (s in saved.stations && saved.stations[s])) && s in env.teamed && e.clock.lastTick <= env.now
    requires var e' := TrackStops(env, e, Some(saved));
      && Runs(e', steps) && (forall i: nat | i <= |steps| :: OutStopped(Run(e', steps[..i]), s))
      && ClearLifts(later, Run(e', steps), op, s)
    requires forall i: nat | i < |steps| :: steps[i].env.now < env.now + RESTORED_STOP_QUIET_MS
    ensures var e' := TrackStops(env, e, Some(saved));
      exists k: nat | k <= |steps| :: Seen(Run(e', steps[..k]), s, env.now, if k == 0 then env.now else steps[k - 1].env.now)
  {
    hide Next, Safe, Settled, DsStopped, Seen, TrackStops, Fresh, Clocked, EStopped, ClearLifts;
    var e' := TrackStops(env, e, Some(saved));
    RestartBegins(env, e, Some(saved));
    RestoredWaits(env, e, saved, s);
    assert steps[..0] == [] && steps[..|steps|] == steps;
    if s !in e'.stops.waits {
      SilenceIsNotEnough(e', s, env.now, env.now);
      NothingRun(e');
    } else {
      WaitsOn(e', steps, s, env.now);
      NotWhileWaiting(later, Run(e', steps), op, s);
      var k: nat :| EvidenceAt(e', steps, s, env.now, k);
      PrefixSilence(e', steps, s, env.now, k);
      SilenceIsNotEnough(Run(e', steps[..k]), s, env.now, steps[k - 1].env.now);
    }
  }

  lemma PrefixSilence(e: Engine, steps: seq<Step>, s: Station, since: int, k: nat)
    requires Settled(e) && Safe(e) && Runs(e, steps) && s in e.stops.since && e.stops.since[s] == since && s in e.stops.waits
    requires forall i: nat | i <= |steps| :: OutStopped(Run(e, steps[..i]), s)
    requires k <= |steps|
    ensures Run(e, steps[..k]).stops.silenceFrom == e.stops.silenceFrom
  {
    hide Next, Safe, Settled, OutStopped, Run, Runs, EvidenceAt;
    PrefixRuns(e, steps, k);
    forall i: nat | i <= k ensures OutStopped(Run(e, steps[..k][..i]), s) {
      assert steps[..k][..i] == steps[..i];
    }
    WaitsOn(e, steps[..k], s, since);
  }
}
