/** The presses of a match that is on, or about to be: starting it, bringing
    robots down and back, and the finishes and hand-offs of a challenge run. */
module EngineRace {
  import opened Field
  import opened EngineState
  import opened EngineSafety
  import opened EngineMark
  import opened EngineEffects
  import opened EngineLive

  // ── Starting ──────────────────────────────────────────────────────

  /** Slot `x` comes before slot `y`. */
  ghost predicate SlotBefore(x: Station, y: Station) {
    exists i: nat, j: nat :: i < j < |STATIONS| && STATIONS[i] == x && STATIONS[j] == y
  }

  /** The legs of alliance `a`: its stations, in the order of their slots. */
  ghost predicate LegsOf(e: Engine, a: Alliance, legs: seq<Station>) {
    && (forall s: Station :: s in legs <==> s in OnSide(e, a))
    && (forall i: nat, j: nat | i < j < |legs| :: SlotBefore(legs[i], legs[j]))
  }

  /** Where the listed stations stand among the slots. */
  ghost predicate ListedFrom(legs: seq<Station>, slots: seq<Station>, i: nat, k: nat) {
    i < |legs| && k < |slots| && slots[k] == legs[i]
  }

  lemma {:induction false} JoinedOrder(e: Engine, a: Alliance, slots: seq<Station>, i: nat, j: nat)
    requires i < j < |JoinedOf(e, a, slots)|
    ensures exists k: nat, l: nat :: k < l < |slots| && ListedFrom(JoinedOf(e, a, slots), slots, i, k) && ListedFrom(JoinedOf(e, a, slots), slots, j, l)
  {
    var front, n := slots[..|slots| - 1], |slots| - 1;
    var legs, before := JoinedOf(e, a, slots), JoinedOf(e, a, front);
    if j < |before| {
      JoinedOrder(e, a, front, i, j);
      var k: nat, l: nat :| k < l < |front| && ListedFrom(before, front, i, k) && ListedFrom(before, front, j, l);
      assert ListedFrom(legs, slots, i, k) && ListedFrom(legs, slots, j, l);
    } else {
      JoinedAt(e, a, front, i);
      var k: nat :| ListedFrom(before, front, i, k);
      assert ListedFrom(legs, slots, i, k) && ListedFrom(legs, slots, j, n);
    }
  }

  lemma {:induction false} JoinedAt(e: Engine, a: Alliance, slots: seq<Station>, i: nat)
    requires i < |JoinedOf(e, a, slots)|
    ensures exists k: nat :: ListedFrom(JoinedOf(e, a, slots), slots, i, k)
  {
    var front, n := slots[..|slots| - 1], |slots| - 1;
    var legs, before := JoinedOf(e, a, slots), JoinedOf(e, a, front);
    if i < |before| {
      JoinedAt(e, a, front, i);
      var k: nat :| ListedFrom(before, front, i, k);
      assert ListedFrom(legs, slots, i, k);
    } else {
      assert ListedFrom(legs, slots, i, n);
    }
  }

  lemma LegsAre(e: Engine, a: Alliance)
    ensures LegsOf(e, a, JoinedOf(e, a, STATIONS))
  {
    var legs := JoinedOf(e, a, STATIONS);
    forall s: Station ensures s in legs <==> s in OnSide(e, a) {
      EveryStationListed(s);
      JoinedOfAll(e, a, STATIONS);
    }
    forall i: nat, j: nat | i < j < |legs| ensures SlotBefore(legs[i], legs[j]) {
      JoinedOrder(e, a, STATIONS, i, j);
      var k: nat, l: nat :| k < l < |STATIONS| && ListedFrom(legs, STATIONS, i, k) && ListedFrom(legs, STATIONS, j, l);
      assert STATIONS[k] == legs[i] && STATIONS[l] == legs[j];
    }
  }

  /** Nobody would know who won the autonomous period that is left out. */
  predicate WinnerMissing(c: Config, winner: Option<Alliance>) {
    && c.skipAuto && c.challenge.None? && winner.None? && (c.autoWinner.ByScores? || c.autoWinner.AskReferee?)
  }

  /** The winner a match begins with: named beforehand by the config or the
      host when there is no autonomous period, and otherwise not by the config. */
  predicate WinnerAtStart(c: Config, before: Option<Alliance>, after: Option<Alliance>) {
    if c.autoWinner.ByScores? || c.autoWinner.AskReferee? || (c.skipAuto && c.challenge.Some?) then after == before
    else if !c.skipAuto then after.None?
    else after == Some(if c.autoWinner.RedWins? then Red else Blue)
  }

  /** Down, with its stops as they were, in the mode of the first period. */
  predicate LinedUp(e: Engine, c: Control, c': Control) {
    && c'.joined == c.joined && c'.alliance == c.alliance && !c'.enabled && c'.eStop == c.eStop && c'.aStop == (c.aStop && c.joined)
    && c'.disabledBy == (if c.eStop then c.disabledBy else None)
    && c'.mode == if c.joined && !e.pending.skipAuto && e.pending.autoDuration > 0.0 then AutoMode else TeleOpMode
  }

  /** `e'` is the countdown of the match set up in `e`. */
  ghost predicate CountsDown(env: Env, e: Engine, e': Engine) {
    && e'.phase.Countdown? && e'.config == Some(e.pending) && e'.runStartedAt.None? && WinnerAtStart(e.pending, e.winner, e'.winner)
    && (forall a: Alliance :: e'.tally[a] == Tally(None, []) && LegsOf(e, a, e'.order[a]))
    && (forall s: Station :: LinedUp(e, e.st[s], e'.st[s]))
    && e'.clock == Clock(3.0, 0.0, env.now, true, e.clock.leaked + (if e.clock.ticking then 1 else 0), 0.0, 0, 0.0)
    && e' == e.(phase := Countdown, config := e'.config, runStartedAt := None, winner := e'.winner, tally := e'.tally,
                order := e'.order, st := e'.st, clock := e'.clock, stops := e'.stops)
  }

  lemma StartedIs(env: Env, e: Engine, e': Engine)
    requires e' == Started(env, e).(stops := e'.stops)
    ensures CountsDown(env, e, e')
  {
    hide LegsOf, JoinedOf;
    LegsAre(e, Red);
    LegsAre(e, Blue);
    forall a: Alliance ensures LegsOf(e, a, e'.order[a]) {
      assert a.Red? || a.Blue?;
    }
  }

  lemma StartNext(env: Env, e: Engine, gates: bool)
    ensures Next(env, e, DoStart(gates)) == StartMatch(env, e, gates)
  {
    hide StartMatch, Broadcast;
  }

  /** A match starts exactly if it is set up, with somebody in it, every gate
      open, no field E-Stop, and its winner known if it has no autonomous. */
  lemma StartStarts(env: Env, e: Engine, gates: bool)
    ensures var e' := Next(env, e, DoStart(gates));
      if e.phase.Created? && gates && !e.latch && (exists s: Station :: e.st[s].joined) && !WinnerMissing(e.pending, e.winner)
      then CountsDown(env, e, e') else e' == e
  {
    hide Next, Broadcast, Started, CountsDown;
    StartNext(env, e, gates);
    BroadcastKeeps(env, Started(env, e));
    if Starts(e, gates) { StartedIs(env, e, Broadcast(env, Started(env, e))); }
  }

  /** The referee names the winner: a match that waits for it goes on, and
      loses hold of the interval it has if it did not wait. */
  lemma WinnerNamed(env: Env, e: Engine, a: Alliance)
    ensures var e' := Next(env, e, DoWinner(a));
      && e'.winner == Some(a) && e' == e.(winner := Some(a), clock := e'.clock, stops := e'.stops)
      && (if e.phase.AutoPause? && e.config.Some? && e.config.value.autoWinner.AskReferee?
          then e'.clock == e.clock.(ticking := true, lastTick := env.now, leaked := e.clock.leaked + (if e.clock.ticking then 1 else 0))
          else e'.clock == e.clock)
  {
    hide Next, Broadcast;
    WinnerNext(env, e, a);
    var named := e.(winner := Some(a));
    BroadcastKeeps(env, named.(clock := StartTick(e.clock, env.now)));
    BroadcastKeeps(env, named);
  }

  lemma WinnerNext(env: Env, e: Engine, a: Alliance)
    ensures Next(env, e, DoWinner(a)) == SetWinner(env, e, a)
  {
    hide SetWinner, Broadcast;
  }

  // ── How a run ends ────────────────────────────────────────────────

  /** The time of the run: what went by since its countdown ended. */
  function Raced(e: Engine): real {
    if e.runStartedAt.Some? && e.runStartedAt.value <= e.clock.total then e.clock.total - e.runStartedAt.value else 0.0
  }

  predicate IsHome(e: Engine, a: Alliance) { e.tally[a].finishedAt.Some? }

  /** Every alliance with a station in the match is home. */
  ghost predicate AllHome(e: Engine) {
    forall s: Station | e.st[s].joined && e.st[s].alliance.Some? :: IsHome(e, e.st[s].alliance.value)
  }

  /** From `e` to `e'` only the run may have ended, and has exactly if
      everybody is home: then the counting period begins, with all down. */
  ghost predicate EndsIfAllHome(e: Engine, e': Engine) {
    if AllHome(e) then
      && e'.phase.PostMatch? && AllDowned(e, e') && e'.clock == e.clock.(remaining := 3.0)
      && e' == e.(phase := PostMatch, clock := e'.clock, st := e'.st, stops := e'.stops)
    else e' == e.(stops := e'.stops)
  }

  lemma EveryoneHome(env: Env, e: Engine)
    ensures EndsIfAllHome(e, EndRunIfEveryoneFinished(env, e))
  {
    hide Broadcast;
    BroadcastKeeps(env, RunOver(e));
    BroadcastKeeps(env, e);
    assert AllHome(e) <==> forall a: Alliance :: Takes(e, a) ==> Finished(e, Some(a)) by { AllHomeIs(e); }
  }

  lemma AllHomeIs(e: Engine)
    ensures AllHome(e) <==> forall a: Alliance :: Takes(e, a) ==> Finished(e, Some(a))
  {
    if AllHome(e) {
      forall a: Alliance | Takes(e, a) ensures Finished(e, Some(a)) {
        var s: Station :| e.st[s].joined && e.st[s].alliance == Some(a);
      }
    } else {
      var s: Station :| e.st[s].joined && e.st[s].alliance.Some? && !IsHome(e, e.st[s].alliance.value);
      assert Takes(e, e.st[s].alliance.value);
    }
  }

  /** Without `s`, which is down if the match is on. */
  function WithoutStation(e: Engine, s: Station): Engine {
    e.(st := e.st[s := Out(if Active(e.phase) then e.st[s].(enabled := false) else e.st[s])])
  }

  /** A station leaves: out of the match, and down if the match is on. The
      last one out ends the match, and so may the last one not yet home. */
  lemma LeaveLeaves(env: Env, e: Engine, s: Station)
    ensures var e' := Next(env, e, DoLeave(s));
      if !e.st[s].joined then e' == e
      else if Active(e.phase) && (forall t: Station | t != s :: !e.st[t].joined) then EndsAtOnce(WithoutStation(e, s), e')
      else if Running(e.phase) && CountUp(e.config) then EndsIfAllHome(WithoutStation(e, s), e')
      else Becomes(e, e', s, WithoutStation(e, s).st[s])
  {
    hide Next, Broadcast, EndRunIfEveryoneFinished, EndsIfAllHome, Becomes, EndNow, EndsAtOnce, AnyJoined, CountUp;
    LeaveNext(env, e, s);
    OthersJoined(e, s);
    EveryoneHome(env, WithoutStation(e, s));
    PutIs(env, e, s, WithoutStation(e, s).st[s]);
    EndNowIs(env, WithoutStation(e, s));
  }

  lemma OthersJoined(e: Engine, s: Station)
    ensures AnyJoined(Departed(e, s)) <==> exists t: Station :: t != s && e.st[t].joined
  {
    var without := Departed(e, s);
    assert forall t: Station :: without.st[t].joined <==> t != s && e.st[t].joined;
  }

  lemma LeaveNext(env: Env, e: Engine, s: Station)
    ensures Next(env, e, DoLeave(s)) == Leave(env, e, s)
  {
    hide Leave, Broadcast;
  }

  // ── Down and back ─────────────────────────────────────────────────

  /** The runner's own disable hands the leg on. */
  predicate HandsOn(e: Engine, s: Station) {
    && TakesTurns(e.config) && e.config.value.challenge.value.handoff.FromDs? && Running(e.phase)
    && e.st[s].alliance.Some? && LegOf(e, s, e.st[s].alliance.value)
  }

  lemma RunnerIs(e: Engine, s: Station, a: Alliance)
    ensures Runner(e, a) == Some(s) <==> LegOf(e, s, a)
  {
  }

  /** A press of Disable takes the robot down, and says who may bring it back. */
  lemma DisableDowns(env: Env, e: Engine, s: Station, self: bool)
    requires !(e.st[s].enabled && self && HandsOn(e, s))
    ensures var e' := Next(env, e, DoDisable(s, self));
      Becomes(e, e', s, e.st[s].(enabled := false, disabledBy := Some(if self then BySelf else ByAdmin)))
  {
    hide Next, Broadcast, RelayAdvance, Becomes, LegOf, Runner;
    DisableNext(env, e, s, self);
    PutIs(env, e, s, e.st[s].(enabled := false, disabledBy := Some(if self then BySelf else ByAdmin)));
    if e.st[s].enabled && self { NotHanding(env, e, s, BySelf); }
  }

  lemma NotHanding(env: Env, e: Engine, s: Station, cause: Disabler)
    requires !HandsOn(e, s)
    ensures var down := Broadcast(env, HeldDown(e, s, cause)); HandoffFromDisable(env, down, s) == down
  {
    hide Broadcast, RelayAdvance;
    BroadcastKeeps(env, HeldDown(e, s, cause));
  }

  lemma DisableNext(env: Env, e: Engine, s: Station, self: bool)
    ensures Next(env, e, DoDisable(s, self)) == Disable(env, e, s, self)
  {
    hide Disable, Broadcast;
  }

  /** When Enable brings a robot back: it is down in a match that runs, nothing
      stops it, it is not home and it is its turn; and only the host brings
      back what the host took down. */
  predicate MayComeBack(env: Env, e: Engine, s: Station, byAdmin: bool) {
    && s !in env.forbidden && (e.phase.Auto? || e.phase.Teleop? || e.phase.Endgame?) && !e.st[s].enabled
    && !e.latch && !e.st[s].eStop && !e.st[s].aStop && InRace(e, s)
    && (TakesTurns(e.config) && e.st[s].alliance.Some? ==> LegOf(e, s, e.st[s].alliance.value))
    && (byAdmin || e.st[s].disabledBy != Some(ByAdmin))
  }

  /** From `e` to `e'` only `s` comes back, in the mode of the period, and it is
      noted when the field enabled it. */
  ghost predicate ComesBack(env: Env, e: Engine, e': Engine, s: Station) {
    && e'.st[s] == e.st[s].(enabled := true, disabledBy := None, mode := if e.phase.Auto? then AutoMode else TeleOpMode)
    && (forall t: Station | t != s :: e'.st[t] == e.st[t])
    && e'.heard == e.heard.(fmsEnable := e.heard.fmsEnable[s := env.now], enabledSeen := e.heard.enabledSeen - {s})
    && e' == e.(st := e'.st, heard := e'.heard, stops := e'.stops)
  }

  lemma MarkedOne(env: Env, h: Heard, s: Station)
    ensures MarkFmsEnabled(env, h, {s}) == h.(fmsEnable := h.fmsEnable[s := env.now], enabledSeen := h.enabledSeen - {s})
  {
    assert MarkFmsEnabled(env, h, {s}).fmsEnable == h.fmsEnable[s := env.now];
  }

  lemma RevivedIs(env: Env, e: Engine, s: Station)
    ensures ComesBack(env, e, Broadcast(env, Revived(env, e, s)), s)
  {
    hide Broadcast, MarkFmsEnabled;
    MarkedOne(env, e.heard, s);
    BroadcastKeeps(env, Revived(env, e, s));
  }

  lemma ComesBackIff(env: Env, e: Engine, s: Station, byAdmin: bool)
    ensures Undisables(env, e, s, byAdmin) <==> MayComeBack(env, e, s, byAdmin)
  {
    hide Runner, LegOf;
    RaceIs(e, s);
    if e.st[s].alliance.Some? { RunnerIs(e, s, e.st[s].alliance.value); }
  }

  lemma EnableBrings(env: Env, e: Engine, s: Station, byAdmin: bool)
    ensures var e' := Next(env, e, DoUndisable(s, byAdmin));
      if MayComeBack(env, e, s, byAdmin) then ComesBack(env, e, e', s) else e' == e
  {
    hide Next, Broadcast, Revived, ComesBack, Undisables, MayComeBack;
    UndisableNext(env, e, s, byAdmin);
    ComesBackIff(env, e, s, byAdmin);
    RevivedIs(env, e, s);
  }

  lemma UndisableNext(env: Env, e: Engine, s: Station, byAdmin: bool)
    ensures Next(env, e, DoUndisable(s, byAdmin)) == Undisable(env, e, s, byAdmin)
  {
    hide Undisable, Broadcast;
  }

  // ── Finishes and hand-offs ────────────────────────────────────────

  /** A challenge against the clock. */
  predicate Timed(config: Option<Config>) {
    config.Some? && config.value.challenge.Some?
    && (config.value.challenge.value.timing.Stopwatch? || config.value.challenge.value.timing.Relay?)
  }

  /** Alliance `a` is on its way: somebody runs for it, and it is not home. */
  ghost predicate OnItsWay(e: Engine, a: Alliance) {
    Timed(e.config) && Running(e.phase) && (exists s: Station :: e.st[s].joined && e.st[s].alliance == Some(a)) && !IsHome(e, a)
  }

  /** `e1` is `e` with alliance `a` home at time `t`, and its robots down. */
  ghost predicate CameHome(e: Engine, e1: Engine, a: Alliance, t: real, cause: Disabler) {
    && e1.tally[a] == e.tally[a].(finishedAt := Some(t)) && e1.tally[Other(a)] == e.tally[Other(a)]
    && (forall s: Station :: e1.st[s] == if e.st[s].joined && e.st[s].alliance == Some(a)
                                         then e.st[s].(enabled := false, disabledBy := Some(cause)) else e.st[s])
    && e1 == e.(tally := e1.tally, st := e1.st)
  }

  ghost predicate ComesHome(e: Engine, e': Engine, a: Alliance, t: real, cause: Disabler) {
    exists e1: Engine :: CameHome(e, e1, a, t, cause) && EndsIfAllHome(e1, e')
  }

  lemma FinishIs(env: Env, e: Engine, a: Alliance, t: real, cause: Disabler)
    ensures ComesHome(e, RecordFinish(env, e, a, t, cause), a, t, cause)
  {
    hide EndRunIfEveryoneFinished, EndsIfAllHome, CameHome;
    var e1 := EngineState.Home(e, a, t, cause);
    HomeIs(e, a, t, cause);
    EveryoneHome(env, e1);
  }

  lemma HomeIs(e: Engine, a: Alliance, t: real, cause: Disabler)
    ensures CameHome(e, EngineState.Home(e, a, t, cause), a, t, cause)
  {
  }

  lemma OnItsWayIff(e: Engine, a: Alliance)
    ensures CanFinish(e, a) <==> OnItsWay(e, a)
  {
  }

  /** The referee's finish stops the clock of an alliance on its way at the
      time of the run, unless the field hands the legs on. */
  lemma FinishRecords(env: Env, e: Engine, a: Alliance)
    ensures var e' := Next(env, e, DoFinish(a));
      if OnItsWay(e, a) && !TakesTurns(e.config) then ComesHome(e, e', a, Raced(e), ByAdmin) else e' == e
  {
    hide Next, ComesHome, RecordFinish, CanFinish, OnItsWay;
    FinishNext(env, e, a);
    OnItsWayIff(e, a);
    FinishIs(env, e, a, RunElapsed(e), ByAdmin);
  }

  lemma FinishNext(env: Env, e: Engine, a: Alliance)
    ensures Next(env, e, DoFinish(a)) == ChallengeFinish(env, e, a)
  {
    hide ChallengeFinish, Broadcast;
  }

  /** The station whose leg comes after `n` legs of alliance `a`. */
  function InOrder(e: Engine, a: Alliance, n: nat): Option<Station> { if n < |e.order[a]| then Some(e.order[a][n]) else None }

  /** `e1` is `e` with the leg of `runner` recorded at time `t`, and it held down. */
  ghost predicate LegRecorded(e: Engine, e1: Engine, a: Alliance, runner: Option<Station>, t: real) {
    && e1.tally[a] == e.tally[a].(splits := e.tally[a].splits + [t]) && e1.tally[Other(a)] == e.tally[Other(a)]
    && (forall s: Station :: e1.st[s] == if runner == Some(s) then e.st[s].(enabled := false, disabledBy := Some(ByRelay)) else e.st[s])
    && e1 == e.(tally := e1.tally, st := e1.st)
  }

  /** From `e` to `e'` the robot of `s` runs the next leg, if nothing stops it. */
  ghost predicate RunsNext(env: Env, e: Engine, e': Engine, s: Station) {
    var c := e.st[s];
    && (forall t: Station | t != s :: e'.st[t] == e.st[t])
    && (if s in env.forbidden then e'.st[s] == c.(enabled := false) && e'.heard == e.heard
        else if c.joined && !e.latch && !c.eStop && !c.aStop && c.disabledBy != Some(ByEStop) then
          && e'.st[s] == c.(enabled := true, mode := TeleOpMode, disabledBy := None)
          && e'.heard == e.heard.(fmsEnable := e.heard.fmsEnable[s := env.now], enabledSeen := e.heard.enabledSeen - {s})
        else e'.st[s] == c && e'.heard == e.heard)
    && e' == e.(st := e'.st, heard := e'.heard, stops := e'.stops)
  }

  /** The leg of alliance `a` ends: its time is recorded, and the next station
      of the running order runs, or the alliance is home. */
  ghost predicate LegEnds(env: Env, e: Engine, e': Engine, a: Alliance) {
    var n := |e.tally[a].splits|;
    exists e1: Engine :: LegRecorded(e, e1, a, InOrder(e, a, n), Raced(e))
      && if InOrder(e, a, n + 1).Some? then RunsNext(env, e1, e', InOrder(e, a, n + 1).value)
         else ComesHome(e1, e', a, Raced(e), ByRelay)
  }

  lemma LegDoneIs(e: Engine, a: Alliance)
    requires !IsHome(e, a)
    ensures LegRecorded(e, LegDone(e, a), a, InOrder(e, a, |e.tally[a].splits|), Raced(e))
  {
  }

  lemma EnableNextIs(env: Env, e: Engine, s: Station)
    ensures RunsNext(env, e, Broadcast(env, EnableStation(env, e, s, TeleOpMode)), s)
  {
    hide Broadcast, MarkFmsEnabled;
    MarkedOne(env, e.heard, s);
    BroadcastKeeps(env, EnableStation(env, e, s, TeleOpMode));
  }

  lemma RelayIs(env: Env, e: Engine, a: Alliance)
    ensures var e' := RelayAdvance(env, e, a);
      if OnItsWay(e, a) && TakesTurns(e.config) then LegEnds(env, e, e', a) else e' == e
  {
    hide LegDone, LegRecorded, RunsNext, ComesHome, RecordFinish, EnableStation, Broadcast, CanFinish, OnItsWay, InOrder;
    OnItsWayIff(e, a);
    if OnItsWay(e, a) && TakesTurns(e.config) {
      NotHome(e, a);
      LegDoneIs(e, a);
      var e1, n := LegDone(e, a), |e.tally[a].splits|;
      AfterLeg(e, a);
      if InOrder(e, a, n + 1).Some? {
        EnableNextIs(env, e1, InOrder(e, a, n + 1).value);
      } else {
        FinishIs(env, e1, a, RunElapsed(e), ByRelay);
      }
    }
  }

  lemma NotHome(e: Engine, a: Alliance)
    requires OnItsWay(e, a)
    ensures !IsHome(e, a)
  {
  }

  lemma AfterLeg(e: Engine, a: Alliance)
    requires !IsHome(e, a)
    ensures Runner(LegDone(e, a), a) == InOrder(e, a, |e.tally[a].splits| + 1)
  {
  }

  /** The referee hands a leg on. */
  lemma RelayHandsOn(env: Env, e: Engine, a: Alliance)
    ensures var e' := Next(env, e, DoRelay(a));
      if OnItsWay(e, a) && TakesTurns(e.config) then LegEnds(env, e, e', a) else e' == e
  {
    hide Next, LegEnds, RelayAdvance, OnItsWay;
    RelayNext(env, e, a);
    RelayIs(env, e, a);
  }

  lemma RelayNext(env: Env, e: Engine, a: Alliance)
    ensures Next(env, e, DoRelay(a)) == RelayAdvance(env, e, a)
  {
    hide RelayAdvance, Broadcast;
  }

  /** The robot goes down for `cause`, and its leg ends with that. */
  ghost predicate DownAndOn(env: Env, e: Engine, e': Engine, s: Station, cause: Disabler)
    requires HandsOn(e, s)
  {
    var a := e.st[s].alliance.value;
    exists down: Engine :: Becomes(e, down, s, e.st[s].(enabled := false, disabledBy := Some(cause)))
      && LegEnds(env, down, e', a)
  }

  lemma HandsOnIs(env: Env, e: Engine, s: Station, cause: Disabler)
    requires HandsOn(e, s) && e.st[s].joined
    ensures DownAndOn(env, e, HandoffFromDisable(env, Broadcast(env, HeldDown(e, s, cause)), s), s, cause)
  {
    hide Broadcast, RelayAdvance, LegEnds, OnItsWay, Becomes;
    var a, down := e.st[s].alliance.value, Broadcast(env, HeldDown(e, s, cause));
    BroadcastKeeps(env, HeldDown(e, s, cause));
    PutIs(env, e, s, e.st[s].(enabled := false, disabledBy := Some(cause)));
    RelayIs(env, down, a);
    StillOnItsWay(e, down, s, a);
  }

  lemma StillOnItsWay(e: Engine, down: Engine, s: Station, a: Alliance)
    requires HandsOn(e, s) && e.st[s].joined && e.st[s].alliance == Some(a)
    requires down.config == e.config && down.phase == e.phase && down.tally == e.tally && down.order == e.order
    requires down.st[s].joined && down.st[s].alliance == Some(a)
    ensures OnItsWay(down, a) && TakesTurns(down.config)
    ensures Runner(down, a) == Some(s)
  {
  }

  /** In a relay the drivers hand on, the runner's Disable ends its leg. */
  lemma DisableHandsOn(env: Env, e: Engine, s: Station)
    requires e.st[s].enabled && HandsOn(e, s) && e.st[s].joined
    ensures DownAndOn(env, e, Next(env, e, DoDisable(s, true)), s, BySelf)
  {
    hide Next, DownAndOn, Broadcast, HandoffFromDisable, HandsOn;
    DisableNext(env, e, s, true);
    HandsOnIs(env, e, s, BySelf);
  }

  // ── What the Driver Stations report ───────────────────────────────

  /** `e1` is `e` with the packet noted: when it came, and whether the robot
      was enabled in it. */
  ghost predicate Noted(env: Env, e: Engine, e1: Engine, s: Station, enabled: bool) {
    && e1 == e.(heard := e1.heard)
    && e1.heard == e.heard.(heartbeat := e.heard.heartbeat[s := env.now],
                            enabledSeen := if enabled then e.heard.enabledSeen + {s} else e.heard.enabledSeen)
  }

  /** A Driver Station that was away for five seconds is back, and took its
      robot down when it went. */
  predicate Returns(env: Env, e: Engine, s: Station) {
    && !(s in e.heard.heartbeat && env.now - e.heard.heartbeat[s] < 5_000)
    && e.st[s].disabledBy == Some(ByDs) && MayComeBack(env, e, s, false)
  }

  /** A report of "disabled" is the driver's: of a robot with comms that is
      enabled, from a station that is an older one or was seen enabled since
      the field enabled it, and not in the two seconds after that. */
  predicate Believed(env: Env, e: Engine, s: Station, status: Status) {
    && !status.enabled && e.st[s].enabled && status.comms && (status.legacy || s in e.heard.enabledSeen)
    && (s in e.heard.fmsEnable ==> env.now - e.heard.fmsEnable[s] > 2_000)
  }

  /** `e1` is `e` with the packet noted, and the robot back if it returns. */
  ghost predicate Seen(env: Env, e: Engine, e1: Engine, s: Station, enabled: bool) {
    exists noted: Engine :: Noted(env, e, noted, s, enabled)
      && if Returns(env, e, s) then ComesBack(env, noted, e1, s) else e1 == noted.(stops := e1.stops)
  }

  lemma NotedIs(env: Env, e: Engine, s: Station, enabled: bool)
    ensures var h := if enabled then e.heard.(enabledSeen := e.heard.enabledSeen + {s}) else e.heard;
      var noted := e.(heard := h.(heartbeat := h.heartbeat[s := env.now]));
      && Noted(env, e, noted, s, enabled)
      && (Undisables(env, noted, s, false) <==> MayComeBack(env, e, s, false))
  {
    hide MayComeBack, Undisables;
    var h := if enabled then e.heard.(enabledSeen := e.heard.enabledSeen + {s}) else e.heard;
    var noted := e.(heard := h.(heartbeat := h.heartbeat[s := env.now]));
    ComesBackIff(env, noted, s, false);
    HeardAside(env, e, noted, s);
  }

  lemma HeardAside(env: Env, e: Engine, noted: Engine, s: Station)
    requires noted == e.(heard := noted.heard)
    ensures MayComeBack(env, noted, s, false) <==> MayComeBack(env, e, s, false)
  {
  }

  lemma SeenIs(env: Env, e: Engine, s: Station, enabled: bool)
    ensures Seen(env, e, NoteHeartbeat(env, e, s, enabled), s, enabled)
  {
    hide Broadcast, Undisables, Revived, MayComeBack, ComesBack, Noted;
    var h := if enabled then e.heard.(enabledSeen := e.heard.enabledSeen + {s}) else e.heard;
    var noted := e.(heard := h.(heartbeat := h.heartbeat[s := env.now]));
    NotedIs(env, e, s, enabled);
    RevivedIs(env, noted, s);
    RevivedTwice(env, noted, s);
    BroadcastKeeps(env, noted);
    RunningComesBack(env, e, s);
    assert Noted(env, e, noted, s, enabled);
  }

  lemma RunningComesBack(env: Env, e: Engine, s: Station)
    ensures MayComeBack(env, e, s, false) ==> Running(e.phase)
  {
  }

  lemma RevivedTwice(env: Env, e: Engine, s: Station)
    ensures ComesBack(env, e, Broadcast(env, Broadcast(env, Revived(env, e, s))), s)
  {
    hide Broadcast;
    RevivedIs(env, e, s);
    BroadcastKeeps(env, Broadcast(env, Revived(env, e, s)));
  }

  predicate ReportsNewEStop(e: Engine, s: Station, status: Status) { status.eStop && !e.st[s].eStop }

  predicate ReportsNewAStop(e: Engine, s: Station, status: Status) {
    status.aStop && !e.st[s].aStop && e.st[s].joined && AutoToCome(e)
  }

  /** What a status packet does after it is seen: a new e-stop stops the robot,
      or a new a-stop in its time, or a "disabled" that is the driver's takes
      it down, and on to the next leg where drivers hand on. */
  ghost predicate Honoured(env: Env, e: Engine, e': Engine, s: Station, status: Status) {
    if ReportsNewEStop(e, s, status) then Becomes(e, e', s, e.st[s].(eStop := true, enabled := false))
    else if ReportsNewAStop(e, s, status) then Becomes(e, e', s, e.st[s].(aStop := true, enabled := false))
    else if !Believed(env, e, s, status) then e' == e
    else if HandsOn(e, s) then DownAndOn(env, e, e', s, ByDs)
    else Becomes(e, e', s, e.st[s].(enabled := false, disabledBy := Some(ByDs)))
  }

  lemma DriverDownIs(env: Env, e: Engine, s: Station)
    requires e.st[s].joined
    ensures var e' := HandoffFromDisable(env, Broadcast(env, HeldDown(e, s, ByDs)), s);
      if HandsOn(e, s) then DownAndOn(env, e, e', s, ByDs) else Becomes(e, e', s, e.st[s].(enabled := false, disabledBy := Some(ByDs)))
  {
    hide Broadcast, Becomes, HandoffFromDisable, DownAndOn, HandsOn;
    if HandsOn(e, s) {
      HandsOnIs(env, e, s, ByDs);
    } else {
      NotHanding(env, e, s, ByDs);
      PutIs(env, e, s, e.st[s].(enabled := false, disabledBy := Some(ByDs)));
    }
  }

  lemma BelievedIff(env: Env, e: Engine, s: Station, status: Status)
    ensures DriverDisabled(env, e, s, status) <==> Believed(env, e, s, status)
  {
  }

  lemma HonouredIs(env: Env, e: Engine, s: Station, status: Status)
    requires e.st[s].enabled ==> e.st[s].joined
    ensures Honoured(env, e, HonourStatus(env, e, s, status), s, status)
  {
    hide Broadcast, Becomes, HandoffFromDisable, DownAndOn, HandsOn, CanAStop, AutoToCome, Put, HeldDown, DriverDisabled;
    CanAStopIff(e);
    BelievedIff(env, e, s, status);
    PutIs(env, e, s, e.st[s].(eStop := true, enabled := false));
    PutIs(env, e, s, e.st[s].(aStop := true, enabled := false));
    if e.st[s].joined { DriverDownIs(env, e, s); }
  }

  /** A status packet is seen, and then honoured. */
  lemma StatusHonoured(env: Env, e: Engine, s: Station, status: Status)
    requires Safe(e)
    ensures var e' := Next(env, e, StatusFrom(s, status));
      exists e1: Engine :: Seen(env, e, e1, s, status.enabled) && Honoured(env, e1, e', s, status)
  {
    hide Next, Seen, Honoured, NoteHeartbeat, HonourStatus;
    StatusNext(env, e, s, status);
    var e1 := NoteHeartbeat(env, e, s, status.enabled);
    SeenIs(env, e, s, status.enabled);
    SeenJoined(env, e, e1, s, status.enabled);
    HonouredIs(env, e1, s, status);
    assert Seen(env, e, e1, s, status.enabled) && Honoured(env, e1, Next(env, e, StatusFrom(s, status)), s, status);
  }

  lemma SeenJoined(env: Env, e: Engine, e1: Engine, s: Station, enabled: bool)
    requires Safe(e) && Seen(env, e, e1, s, enabled)
    ensures e1.st[s].enabled ==> e1.st[s].joined
  {
  }

  lemma StatusNext(env: Env, e: Engine, s: Station, status: Status)
    ensures Next(env, e, StatusFrom(s, status)) == DsStatus(env, e, s, status)
  {
    hide DsStatus, Broadcast;
  }

  /** A control packet is noted, and touches no robot. */
  lemma ControlNoted(env: Env, e: Engine, s: Station, enabled: Option<bool>)
    ensures var e' := Next(env, e, ControlSeen(s, enabled));
      && e' == e.(heard := e'.heard, stops := e'.stops)
      && e'.heard == e.heard.(control := e.heard.control[s := DsControl(env.now, enabled)])
  {
    hide Next, Broadcast;
    ControlNext(env, e, s, enabled);
    var noted := e.(heard := e.heard.(control := e.heard.control[s := DsControl(env.now, enabled)]));
    BroadcastKeeps(env, noted.(stops := noted.stops.(waits := noted.stops.waits + {s})));
    BroadcastKeeps(env, noted);
  }

  lemma ControlNext(env: Env, e: Engine, s: Station, enabled: Option<bool>)
    ensures Next(env, e, ControlSeen(s, enabled)) == NoteControl(env, e, s, enabled)
  {
    hide NoteControl, Broadcast;
  }
}
