/** What each press, timer and report does to the match, the robots and the
    clock, in every state, and that what it does not name stays as it was. */
module EngineEffects {
  import opened Field
  import opened EngineState
  import opened EngineSafety
  import opened EngineMark

  // ── What stays ────────────────────────────────────────────────────

  /** Nothing but the control of `s` differs, which is now `c`, and what is
      recorded of the stops. */
  ghost predicate Becomes(e: Engine, e': Engine, s: Station, c: Control) {
    && e'.st[s] == c && (forall t: Station | t != s :: e'.st[t] == e.st[t])
    && e' == e.(st := e'.st, stops := e'.stops)
  }

  lemma PutIs(env: Env, e: Engine, s: Station, c: Control)
    ensures Becomes(e, Broadcast(env, Put(e, s, c)), s, c)
  {
    hide Broadcast;
    BroadcastKeeps(env, Put(e, s, c));
  }

  /** Every robot is down, and its control otherwise as it was. */
  ghost predicate AllDowned(e: Engine, e': Engine) { forall t: Station :: e'.st[t] == e.st[t].(enabled := false) }

  // ── Stops ─────────────────────────────────────────────────────────

  /** `e'` is `e` with the field stopped: latched, every robot e-stopped and
      down, a match that was on over, and no resume left counting. */
  ghost predicate FieldStopped(e: Engine, e': Engine) {
    && e'.latch && (forall s: Station :: EStopped(e', s)) && AllDowned(e, e')
    && !Active(e'.phase) && !e'.resuming
    && (if Active(e.phase) then e'.phase.PostMatch? && e'.prePause.None? && e'.clock == e.clock.(ticking := false, remaining := 0.0)
        else e'.phase == e.phase && e'.prePause == e.prePause && e'.clock == e.clock)
    && e' == e.(latch := true, resuming := false, phase := e'.phase, prePause := e'.prePause, clock := e'.clock,
                st := e'.st, stops := e'.stops)
  }

  lemma FieldEStopIs(env: Env, e: Engine)
    ensures FieldStopped(e, FieldEStop(env, e))
  {
    hide Broadcast;
    var e1 := e.(latch := true, resuming := false, st := DisabledAll(e.st));
    BroadcastKeeps(env, if Active(e.phase) then EndNow(e1.(prePause := None)) else e1);
  }

  /** The field E-Stop does that in any state. */
  lemma FieldEStopStops(env: Env, e: Engine)
    ensures FieldStopped(e, Next(env, e, DoFieldEStop))
  {
    hide FieldEStop, FieldStopped;
    FieldEStopIs(env, e);
  }

  /** A station's E-Stop, in any state, latches and takes its robot down. */
  lemma EStopStops(env: Env, e: Engine, s: Station)
    ensures var e' := Next(env, e, DoEStop(s));
      Becomes(e, e', s, e.st[s].(eStop := true, enabled := false))
  {
    hide Broadcast, Put, Becomes;
    PutIs(env, e, s, e.st[s].(eStop := true, enabled := false));
  }

  /** The autonomous period is still ahead, on, or held. */
  predicate AutoToCome(e: Engine) {
    e.phase.Created? || e.phase.Countdown? || e.phase.Auto? || (e.phase.Paused? && e.prePause == Some(Auto))
  }

  lemma CanAStopIff(e: Engine)
    ensures CanAStop(e) <==> AutoToCome(e)
  {
  }

  /** From `e` to `e'` the control of `s` becomes `c` if the step acts, and
      otherwise nothing changes. */
  ghost predicate BecomesIf(e: Engine, e': Engine, s: Station, c: Control, acts: bool) {
    if acts then Becomes(e, e', s, c) else e' == e
  }

  lemma AStopIs(env: Env, e: Engine, s: Station)
    ensures BecomesIf(e, StationAStop(env, e, s), s, e.st[s].(aStop := true, enabled := false),
                      e.st[s].joined && !e.st[s].aStop && AutoToCome(e))
    ensures BecomesIf(e, ClearAStop(env, e, s), s, e.st[s].(aStop := false), e.phase.Created? && e.st[s].aStop)
  {
    hide Broadcast, Put, Becomes, CanAStop, AutoToCome;
    CanAStopIff(e);
    PutIs(env, e, s, e.st[s].(aStop := true, enabled := false));
    PutIs(env, e, s, e.st[s].(aStop := false));
  }

  /** A station's A-Stop takes its robot down through the autonomous period:
      a joined robot's, before that period is over, and once. */
  lemma AStopStops(env: Env, e: Engine, s: Station)
    ensures BecomesIf(e, Next(env, e, DoAStop(s)), s, e.st[s].(aStop := true, enabled := false),
                      e.st[s].joined && !e.st[s].aStop && AutoToCome(e))
  {
    hide StationAStop, BecomesIf, AutoToCome;
    AStopIs(env, e, s);
  }

  /** It is taken back during set-up only. */
  lemma AStopCleared(env: Env, e: Engine, s: Station)
    ensures BecomesIf(e, Next(env, e, DoClearAStop(s)), s, e.st[s].(aStop := false), e.phase.Created? && e.st[s].aStop)
  {
    hide ClearAStop, BecomesIf;
    AStopIs(env, e, s);
  }

  /** What becomes of a station when its e-stop, if any, is lifted. */
  function CameBack(e: Engine, c: Control, lifted: bool): Control {
    if lifted && c.joined && Active(e.phase) then c.(enabled := false, disabledBy := Some(ByEStop)) else c
  }

  lemma LiftingAt(env: Env, e: Engine, after: Engine, s: Station)
    requires after.phase == e.phase
    ensures Broadcast(env, Lifting(e, after)).st[s] == CameBack(e, after.st[s], EStopped(e, s) && !EStopped(after, s))
  {
    hide Broadcast;
    BroadcastKeeps(env, Lifting(e, after));
  }

  lemma LiftingRest(env: Env, e: Engine, after: Engine)
    ensures var e' := Broadcast(env, Lifting(e, after)); e' == after.(st := e'.st, stops := e'.stops)
  {
    hide Broadcast;
    BroadcastKeeps(env, Lifting(e, after));
  }

  lemma ClearOneIs(env: Env, e: Engine, s: Station)
    ensures Becomes(e, Broadcast(env, Lifting(e, Put(e, s, e.st[s].(eStop := false)))), s,
                    CameBack(e, e.st[s].(eStop := false), e.st[s].eStop && !e.latch))
  {
    hide Broadcast, Lifting;
    var after := Put(e, s, e.st[s].(eStop := false));
    LiftingRest(env, e, after);
    forall t: Station ensures Broadcast(env, Lifting(e, after)).st[t] == CameBack(e, after.st[t], EStopped(e, t) && !EStopped(after, t)) {
      LiftingAt(env, e, after, t);
    }
  }

  /** One station's clear lifts its own stop, unless the stop still waits for
      its Driver Station; in a match the robot stays down until enabled. */
  lemma EStopCleared(env: Env, e: Engine, s: Station)
    ensures var e' := Next(env, e, DoClearEStop(s));
      if !e.latch && s in e.stops.waits then e' == e
      else Becomes(e, e', s, CameBack(e, e.st[s].(eStop := false), e.st[s].eStop && !e.latch))
  {
    hide Broadcast, Lifting, Put, Becomes, CameBack;
    ClearOneIs(env, e, s);
  }

  /** The field's clear lifts the latch alone, unless a station that has only
      the field's stop still waits. */
  lemma FieldEStopCleared(env: Env, e: Engine)
    ensures var e' := Next(env, e, DoClearField);
      if !e.latch || (exists s: Station :: s in e.stops.waits && !e.st[s].eStop) then e' == e
      else && !e'.latch && (forall s: Station :: e'.st[s] == CameBack(e, e.st[s], !e.st[s].eStop))
           && e' == e.(latch := false, st := e'.st, stops := e'.stops)
  {
    hide Broadcast;
    BroadcastKeeps(env, Lifting(e, e.(latch := false)));
  }

  /** Every e-stop is lifted, the latch too, and nothing else differs. */
  ghost predicate AllCleared(e: Engine, e': Engine) {
    && !e'.latch && (forall s: Station :: e'.st[s] == CameBack(e, e.st[s].(eStop := false), EStopped(e, s)))
    && e' == e.(latch := false, st := e'.st, stops := e'.stops)
  }

  lemma ClearAllIs(env: Env, e: Engine)
    ensures AllCleared(e, Broadcast(env, Lifting(e, e.(latch := false, st := map s: Station | s in e.st :: e.st[s].(eStop := false)))))
  {
    hide Broadcast, Lifting, CameBack;
    var after := e.(latch := false, st := map s: Station | s in e.st :: e.st[s].(eStop := false));
    LiftingRest(env, e, after);
    forall s: Station ensures Broadcast(env, Lifting(e, after)).st[s] == CameBack(e, after.st[s], EStopped(e, s)) {
      LiftingAt(env, e, after, s);
    }
  }

  /** The clear of everything does that, unless any station still waits. */
  lemma AllEStopsCleared(env: Env, e: Engine)
    ensures var e' := Next(env, e, DoClearAll);
      if exists s: Station :: s in e.stops.waits then e' == e else AllCleared(e, e')
  {
    hide Broadcast, Lifting, AllCleared;
    ClearAllIs(env, e);
  }

  // ── The course of a match ─────────────────────────────────────────

  /** `e'` is `e` with the match over, every robot down and no time left. */
  ghost predicate EndsAtOnce(e: Engine, e': Engine) {
    && e'.phase.PostMatch? && AllDowned(e, e') && !e'.resuming && e'.clock == e.clock.(ticking := false, remaining := 0.0)
    && e' == e.(phase := PostMatch, resuming := false, clock := e'.clock, st := e'.st, stops := e'.stops)
  }

  lemma EndNowIs(env: Env, e: Engine)
    ensures EndsAtOnce(e, Broadcast(env, EndNow(e)))
  {
    hide Broadcast;
    BroadcastKeeps(env, EndNow(e));
  }

  /** The host's stop: exactly a match that is on ends, with every robot down. */
  lemma StopEnds(env: Env, e: Engine)
    ensures var e' := Next(env, e, DoStop);
      if Active(e.phase) then EndsAtOnce(e, e') else e' == e
  {
    hide Broadcast, EndNow, EndsAtOnce;
    EndNowIs(env, e);
  }

  /** A pause: a running match is held where it is, with every robot down and
      the clock still; a resume that is counting is called off. */
  lemma PauseHolds(env: Env, e: Engine)
    ensures var e' := Next(env, e, DoPause);
      if Running(e.phase)
      then && e'.phase.Paused? && e'.prePause == Some(e.phase) && AllDowned(e, e') && e'.clock == e.clock.(ticking := false)
           && e' == e.(phase := Paused, prePause := e'.prePause, clock := e'.clock, st := e'.st, stops := e'.stops)
      else e' == e.(resuming := e.resuming && !e.phase.Paused?, stops := e'.stops)
  {
    hide Broadcast;
    BroadcastKeeps(env, OnHold(e));
    BroadcastKeeps(env, e.(resuming := false));
  }

  /** A resume only begins to count, and only in a paused match. */
  lemma ResumeCounts(env: Env, e: Engine)
    ensures var e' := Next(env, e, DoResume);
      e' == e.(resuming := e.resuming || e.phase.Paused?, stops := e'.stops)
  {
    hide Broadcast;
    BroadcastKeeps(env, e.(resuming := true));
  }

  /** The countdown called off: back to set-up with everybody still joined. */
  lemma AbortReturns(env: Env, e: Engine)
    ensures var e' := Next(env, e, DoAbort);
      if e.phase.Countdown?
      then && e'.phase.Created? && e'.clock == e.clock.(ticking := false, remaining := 0.0)
           && (forall s: Station :: e'.st[s] == if e.st[s].joined then e.st[s].(enabled := false, mode := TeleOpMode) else e.st[s])
           && e' == e.(phase := Created, clock := e'.clock, st := e'.st, stops := e'.stops)
      else e' == e
  {
    hide Broadcast;
    BroadcastKeeps(env, Aborted(e));
  }

  // ── Setting a match up ────────────────────────────────────────────

  /** A new match, from idle or after a match: nobody has joined it, every
      e-stop but the field's is gone, and so are the winner and the times. */
  lemma CreateSetsUp(env: Env, e: Engine)
    ensures var e' := Next(env, e, DoCreate);
      if e.phase.Idle? || e.phase.PostMatch?
      then && e'.phase.Created? && e'.config.None? && e'.winner.None? && e'.latch == e.latch && e'.clock == e.clock
           && (forall s: Station :: e'.st[s] == Control(false, None, false, false, false, e.st[s].mode, None))
           && (forall a: Alliance :: e'.tally[a] == Tally(None, []))
           && (e'.pending == if e.pending.challenge.Some? then e.pending else Config(20.0, 140.0, 30.0, 3.0, false, ByScores, None))
           && e' == e.(phase := Created, config := None, winner := None, st := e'.st, tally := e'.tally, pending := e'.pending,
                       stops := e'.stops)
      else e' == e
  {
    hide Broadcast;
    BroadcastKeeps(env, SetUp(e));
  }

  /** Out of the match, and out of its a-stop. */
  function Out(c: Control): Control { c.(joined := false, alliance := None, aStop := false) }

  lemma CancelLetsGo(env: Env, e: Engine)
    ensures var e' := Next(env, e, DoCancel);
      if e.phase.Created?
      then && e'.phase.Idle? && (forall s: Station :: e'.st[s] == Out(e.st[s]))
           && e' == e.(phase := Idle, st := e'.st, stops := e'.stops)
      else e' == e
  {
    hide Broadcast;
    BroadcastKeeps(env, e.(st := Unjoined(e.st), phase := Idle));
  }

  lemma ClearPutsAway(env: Env, e: Engine)
    ensures var e' := Next(env, e, DoClear);
      if e.phase.PostMatch?
      then && e'.phase.Idle? && e'.config.None? && e'.winner.None? && e'.latch == e.latch
           && (forall s: Station :: e'.st[s] == Out(e.st[s]).(eStop := false))
           && e'.clock == e.clock.(ticking := false, remaining := 0.0)
           && e' == e.(phase := Idle, config := None, winner := None, clock := e'.clock, st := e'.st, stops := e'.stops)
      else e' == e
  {
    hide Broadcast;
    BroadcastKeeps(env, Cleared(e));
  }

  /** An official match has official times; a challenge one window of ten to
      three hundred seconds, and no autonomous period. */
  lemma ConfigIs(env: Env, e: Engine, request: Request)
    ensures var e' := Next(env, e, DoConfig(request));
      if e.phase.Created?
      then && e' == e.(pending := e'.pending, stops := e'.stops)
           && (if request.OfficialMatch?
               then e'.pending == Config(20.0, 140.0, 30.0, 3.0, request.skipAuto, request.autoWinner, None)
               else && e'.pending.challenge == Some(request.style) && e'.pending.skipAuto && 10.0 <= e'.pending.teleopDuration <= 300.0
                    && e'.pending.autoDuration == e'.pending.pauseDuration == e'.pending.endgameDuration == 0.0
                    && (10 <= request.seconds <= 300 ==> e'.pending.teleopDuration == request.seconds as real)
                    && (request.seconds < 10 ==> e'.pending.teleopDuration == 10.0)
                    && (request.seconds > 300 ==> e'.pending.teleopDuration == 300.0))
      else e' == e
  {
    hide Broadcast;
    BroadcastKeeps(env, e.(pending := ConfigFor(request)));
  }

  /** The stations on an alliance. */
  ghost function OnSide(e: Engine, a: Alliance): set<Station> { set s: Station | e.st[s].joined && e.st[s].alliance == Some(a) }

  lemma {:induction false} OnceEach(slots: seq<Station>)
    requires Distinct(slots)
    ensures |set s | s in slots| == |slots|
  {
    if slots != [] {
      var front, n := slots[..|slots| - 1], |slots| - 1;
      OnceEach(front);
      assert slots == front + [slots[n]];
      forall i: nat | i < n ensures front[i] != slots[n] { assert slots[i] != slots[n]; }
      assert (set s | s in slots) == (set s | s in front) + {slots[n]};
    }
  }

  /** An alliance has room for three. */
  lemma FullIff(e: Engine, a: Alliance)
    ensures Full(e, a) <==> |OnSide(e, a)| >= 3
  {
    hide JoinedOf, Distinct;
    JoinedOfDistinct(e, a, STATIONS);
    JoinedOfAll(e, a, STATIONS);
    OnceEach(JoinedOf(e, a, STATIONS));
    forall s: Station ensures s in STATIONS { EveryStationListed(s); }
    assert (set s | s in JoinedOf(e, a, STATIONS)) == OnSide(e, a);
  }

  lemma JoinIs(env: Env, e: Engine, s: Station, a: Alliance)
    ensures BecomesIf(e, Join(env, e, s, a), s, e.st[s].(joined := true, alliance := Some(a)),
                      e.phase.Created? && |OnSide(e, a)| < 3 && s !in OnSide(e, a))
  {
    hide Broadcast, Put, Becomes, Full;
    FullIff(e, a);
    PutIs(env, e, s, e.st[s].(joined := true, alliance := Some(a)));
    if e.st[s].joined { PutIs(env, e, s, e.st[s].(alliance := Some(a))); }
  }

  /** A team joins a side, or changes to it, during set-up, while that side has room. */
  lemma JoinJoins(env: Env, e: Engine, s: Station, a: Alliance)
    ensures BecomesIf(e, Next(env, e, DoJoin(s, a)), s, e.st[s].(joined := true, alliance := Some(a)),
                      e.phase.Created? && |OnSide(e, a)| < 3 && s !in OnSide(e, a))
  {
    hide Join, BecomesIf, OnSide;
    JoinIs(env, e, s, a);
  }

  lemma SwapNext(env: Env, e: Engine, s: Station)
    ensures Next(env, e, DoSwap(s)) == SwapAlliance(env, e, s)
  {
    hide SwapAlliance, Broadcast;
  }

  lemma SwapChangesSide(env: Env, e: Engine, s: Station, a: Alliance, b: Alliance)
    requires e.st[s].alliance == Some(a) && b != a
    ensures var e' := Next(env, e, DoSwap(s));
      if e.phase.Created? && e.st[s].joined && |OnSide(e, b)| < 3 then Becomes(e, e', s, e.st[s].(alliance := Some(b)))
      else e' == e
  {
    hide Next, Broadcast, Put, Becomes, Full;
    SwapNext(env, e, s);
    FullIff(e, b);
    PutIs(env, e, s, e.st[s].(alliance := Some(b)));
  }

  lemma KickLetsGo(env: Env, e: Engine, s: Station)
    ensures var e' := Next(env, e, DoKick(s));
      if e.phase.Created? && e.st[s].joined then Becomes(e, e', s, Out(e.st[s])) else e' == e
  {
    hide Broadcast, Put, Becomes;
    PutIs(env, e, s, Left(e.st[s]));
  }

  /** The stations whose robot changed under them are let go, and no others. */
  lemma ReconcileLetsGo(env: Env, e: Engine, changed: set<Station>)
    ensures var e' := Next(env, e, DoReconcile(changed));
      && e' == e.(st := e'.st, stops := e'.stops)
      && forall s: Station :: e'.st[s] == if e.phase.Created? && s in changed && e.st[s].joined then Out(e.st[s]) else e.st[s]
  {
    hide Broadcast;
    BroadcastKeeps(env, e.(st := map s: Station | s in e.st :: Dropped(e.st[s], s in changed)));
  }
}
