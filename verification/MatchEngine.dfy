/** The match engine as the object it is: fields updated in place, each
    method tied to the step it takes on values. */
module MatchEngine {
  import opened Field
  import opened EngineState
  import opened EngineStops
  import EngineClock
  import EngineMark
  import EngineRuns
  import EngineSafety
  import Spec = EngineState

  lemma NextListed(i: nat)
    requires i < |STATIONS|
    ensures STATIONS[..i + 1] == STATIONS[..i] + [STATIONS[i]]
    ensures STATIONS[i] !in STATIONS[..i]
  {
  }

  lemma AllListed()
    ensures STATIONS[..|STATIONS|] == STATIONS
    ensures forall s: Station :: s in STATIONS
  {
    forall s: Station ensures s in STATIONS {
      EveryStationListed(s);
    }
  }

  class MatchEngine {
    var phase: Phase
    var config: Option<Config>
    var pendingConfig: Config
    var states: Controls
    var fieldEStop: bool
    var autoWinner: Option<Alliance>
    var tally: Tallies
    var relayOrder: Orders
    var runStartedAt: Option<real>
    var prePausePhase: Option<Phase>
    var resuming: bool
    var clock: Clock
    var heard: Heard
    var stops: Stops

    ghost function View(): Engine
      reads this
    {
      Engine(phase, config, pendingConfig, states, fieldEStop, autoWinner, tally, relayOrder, runStartedAt,
             prePausePhase, resuming, clock, heard, stops)
    }

    constructor ()
      ensures EngineSafety.Fresh(View()) && !View().latch
    {
      phase, config, pendingConfig := Idle, None, OFFICIAL;
      states := map s: Station | s in STATIONS || s !in STATIONS :: FRESH;
      fieldEStop, autoWinner := false, None;
      tally := map a: Alliance | a.Red? || a.Blue? :: NO_TALLY;
      relayOrder := map a: Alliance | a.Red? || a.Blue? :: [];
      runStartedAt, prePausePhase, resuming := None, None, false;
      clock := Clock(0.0, 0.0, 0, false, 0, 0.0, 0, 0.0);
      heard := Heard({}, map[], map[], map[]);
      stops := Stops(map[], {}, 0);
    }

    // ── Lookups ─────────────────────────────────────────────────────

    predicate IsEStopped(s: Station)
      reads this
      ensures IsEStopped(s) == EStopped(View(), s)
    {
      fieldEStop || states[s].eStop
    }

    predicate IsMatchActive()
      reads this
    {
      Active(phase)
    }

    predicate AllianceFinished(a: Option<Alliance>)
      reads this
      ensures AllianceFinished(a) == Finished(View(), a)
    {
      a.Some? && tally[a.value].finishedAt.Some?
    }

    function RelayRunner(a: Alliance): (r: Option<Station>)
      reads this
      ensures r == Runner(View(), a)
    {
      if AllianceFinished(Some(a)) || |tally[a].splits| >= |relayOrder[a]| then None
      else Some(relayOrder[a][|tally[a].splits|])
    }

    method AnyoneJoined() returns (any: bool)
      ensures any == AnyJoined(View())
    {
      for i := 0 to |STATIONS|
        invariant forall s :: s in STATIONS[..i] ==> !states[s].joined
      {
        NextListed(i);
        if states[STATIONS[i]].joined {
          assert View().st[STATIONS[i]].joined;
          return true;
        }
      }
      AllListed();
      return false;
    }

    method AllianceStations(a: Alliance) returns (slots: seq<Station>)
      ensures slots == JoinedOf(View(), a, STATIONS)
    {
      slots := [];
      for i := 0 to |STATIONS|
        invariant slots == JoinedOf(View(), a, STATIONS[..i])
      {
        NextListed(i);
        var s := STATIONS[i];
        assert STATIONS[..i + 1][..i] == STATIONS[..i];
        if states[s].joined && states[s].alliance == Some(a) {
          slots := slots + [s];
        }
      }
      AllListed();
    }

    method AllianceFull(a: Alliance) returns (full: bool)
      ensures full == Full(View(), a)
    {
      var slots := AllianceStations(a);
      return |slots| >= 3;
    }

    method TakesPart(a: Alliance) returns (takes: bool)
      ensures takes == Takes(View(), a)
    {
      for i := 0 to |STATIONS|
        invariant forall s :: s in STATIONS[..i] ==> !(states[s].joined && states[s].alliance == Some(a))
      {
        NextListed(i);
        var s := STATIONS[i];
        if states[s].joined && states[s].alliance == Some(a) {
          assert View().st[s].joined;
          return true;
        }
      }
      AllListed();
      return false;
    }

    // ── The wait on the Driver Stations ─────────────────────────────

    function LatestControl(s: Station): Option<DsControl>
      reads this
    {
      if s in heard.control then Some(heard.control[s]) else None
    }

    predicate IsDsAttached(s: Station, now: int)
      reads this
      ensures IsDsAttached(s, now) == Attached(View(), s, now)
    {
      s in heard.heartbeat && now - heard.heartbeat[s] < DS_ATTACHED_TIMEOUT_MS
    }

    method DsHasStopped(s: Station, since: int, now: int) returns (stopped: bool)
      ensures stopped == DsStopped(View(), s, since, now)
    {
      var last := LatestControl(s);
      if last.Some? && last.value.enabled == Some(false) && last.value.at >= since - STOP_SEEN_SLACK_MS {
        return true;
      }
      if !(last.Some? && last.value.enabled == Some(true)) && IsDsAttached(s, now) {
        return true;
      }
      var quietSince := Max(Max(since, if last.Some? then last.value.at else 0), stops.silenceFrom);
      return now - quietSince >= DS_CONTROL_QUIET_MS;
    }

    /** What a review leaves of the wait of station `s`, `e` being the engine
        before it. */
    static ghost predicate Reviewed(world: Env, e: Engine, stops: Stops, s: Station) {
      && (s in stops.since <==> OutStopped(e, s))
      && (s in stops.since ==> stops.since[s] == if s in e.stops.since then e.stops.since[s] else world.now)
      && (s in stops.waits <==>
            && OutStopped(e, s) && (s in e.stops.waits || (s !in e.stops.since && s in world.teamed))
            && !DsStopped(e, s, stops.since[s], world.now))
    }

    static ghost predicate SameWait(a: Stops, b: Stops, s: Station) {
      && (s in a.since <==> s in b.since) && (s in a.waits <==> s in b.waits)
      && (s in a.since ==> a.since[s] == b.since[s])
    }

    /** Whether the wait goes on, for a stop that began at `since`. */
    method StillWaits(s: Station, since: int, now: int, waiting: bool, ghost e: Engine) returns (waits: bool)
      requires SameNews(View(), e)
      ensures waits == (waiting && !DsStopped(e, s, since, now))
    {
      hide DsStopped;
      if !waiting {
        return false;
      }
      var stopped := DsHasStopped(s, since, now);
      SameEvidence(View(), e, s, since, now);
      return !stopped;
    }

    method ReviewStopWait(world: Env, s: Station, ghost e: Engine)
      requires SameWait(stops, e.stops, s) && SameNews(View(), e) && e.st == states && e.latch == fieldEStop
      modifies `stops
      ensures Reviewed(world, e, stops, s) && stops.silenceFrom == old(stops.silenceFrom)
      ensures forall t: Station | t != s :: SameWait(stops, old(stops), t)
    {
      hide DsStopped, SameNews;
      if states[s].joined || !IsEStopped(s) {
        stops := stops.(since := stops.since - {s}, waits := stops.waits - {s});
        return;
      }
      var begins := s !in stops.since;
      var since := if begins then world.now else stops.since[s];
      var waiting := s in stops.waits || (begins && s in world.teamed);
      waiting := StillWaits(s, since, world.now, waiting, e);
      stops := stops.(since := stops.since[s := since], waits := if waiting then stops.waits + {s} else stops.waits - {s});
    }

    /** Every broadcast reviews the waits of all six stations. */
    method Broadcast(world: Env)
      modifies `stops
      ensures View() == Spec.Broadcast(world, old(View()))
    {
      hide DsStopped, OutStopped, Spec.Broadcast, Reviewed, SameWait;
      ghost var e := View();
      AllSame(stops);
      for i := 0 to |STATIONS|
        invariant stops.silenceFrom == e.stops.silenceFrom
        invariant forall s: Station | s in STATIONS[..i] :: Reviewed(world, e, stops, s)
        invariant forall s: Station | s !in STATIONS[..i] :: SameWait(stops, e.stops, s)
      {
        NextListed(i);
        ghost var before := stops;
        ReviewStopWait(world, STATIONS[i], e);
        OthersKept(world, e, before, stops, STATIONS[i]);
      }
      AllListed();
      AllReviewed(world, e, stops);
    }

    static lemma AllSame(stops: Stops)
      ensures forall s: Station :: SameWait(stops, stops, s)
    {
    }

    static lemma OthersKept(world: Env, e: Engine, before: Stops, after: Stops, s: Station)
      requires forall t: Station | t != s :: SameWait(after, before, t)
      ensures forall t: Station | t != s :: Reviewed(world, e, before, t) ==> Reviewed(world, e, after, t)
      ensures forall t: Station | t != s :: SameWait(before, e.stops, t) ==> SameWait(after, e.stops, t)
    {
      hide DsStopped, OutStopped;
      forall t: Station | t != s
        ensures Reviewed(world, e, before, t) ==> Reviewed(world, e, after, t)
        ensures SameWait(before, e.stops, t) ==> SameWait(after, e.stops, t) {
        assert SameWait(after, before, t);
      }
    }

    static lemma AllReviewed(world: Env, e: Engine, stops: Stops)
      requires forall s: Station :: Reviewed(world, e, stops, s)
      requires stops.silenceFrom == e.stops.silenceFrom
      ensures Spec.Broadcast(world, e) == e.(stops := stops)
    {
      hide DsStopped, OutStopped, Spec.Broadcast;
      var b := Spec.Broadcast(world, e).stops;
      forall s: Station
        ensures (s in stops.since <==> s in b.since) && (s in stops.waits <==> s in b.waits)
        ensures s in b.since ==> stops.since[s] == b.since[s] {
        assert Reviewed(world, e, stops, s);
        BroadcastAt(world, e, s);
      }
      assert stops.since == b.since;
      assert stops.waits == b.waits;
      EngineMark.BroadcastKeeps(world, e);
      BroadcastAt(world, e, Slot1);
    }

    // ── Enabling and disabling ──────────────────────────────────────

    method DisableAll()
      modifies `states
      ensures states == DisabledAll(old(states))
    {
      ghost var was := states;
      for i := 0 to |STATIONS|
        invariant forall s: Station :: states[s] == if s in STATIONS[..i] then was[s].(enabled := false) else was[s]
      {
        NextListed(i);
        states := states[STATIONS[i] := states[STATIONS[i]].(enabled := false)];
      }
      AllListed();
    }

    method MarkFmsEnabled(world: Env, s: Station)
      modifies `heard
      ensures heard == Spec.MarkFmsEnabled(world, old(heard), {s})
    {
      MarkOne(world, heard, s);
      heard := heard.(fmsEnable := heard.fmsEnable[s := world.now], enabledSeen := heard.enabledSeen - {s});
    }

    static lemma MarkOne(world: Env, h: Heard, s: Station)
      ensures Spec.MarkFmsEnabled(world, h, {s}) == h.(fmsEnable := h.fmsEnable[s := world.now], enabledSeen := h.enabledSeen - {s})
    {
    }

    method EnableStation(world: Env, s: Station, mode: Mode)
      modifies `states, `heard
      ensures View() == Spec.EnableStation(world, old(View()), s, mode)
    {
      hide Spec.MarkFmsEnabled;
      if s in world.forbidden {
        states := states[s := states[s].(enabled := false)];
      } else if states[s].joined && !IsEStopped(s) && !states[s].aStop && states[s].disabledBy != Some(ByEStop) {
        states := states[s := states[s].(enabled := true, mode := mode, disabledBy := None)];
        MarkFmsEnabled(world, s);
      } else {
        assert states == states[s := states[s]];
      }
    }

    method HoldDown(s: Station, cause: Disabler)
      modifies `states
      ensures View() == HeldDown(old(View()), s, cause)
    {
      states := states[s := states[s].(enabled := false, disabledBy := Some(cause))];
    }

    // ── The end of a match ──────────────────────────────────────────

    method EndNow()
      modifies `phase, `states, `resuming, `clock
      ensures View() == Spec.EndNow(old(View()))
    {
      hide DisabledAll;
      resuming := false;
      DisableAll();
      phase := PostMatch;
      clock := StopTick(clock).(remaining := 0.0);
    }

    method EndChallengeRun()
      modifies `phase, `states, `clock
      ensures View() == RunOver(old(View()))
    {
      hide DisabledAll;
      phase := PostMatch;
      clock := clock.(remaining := POST_MATCH_COUNT_SECONDS);
      DisableAll();
    }

    method EndRunIfEveryoneFinished(world: Env)
      modifies this
      ensures View() == Spec.EndRunIfEveryoneFinished(world, old(View()))
    {
      hide Spec.Broadcast, RunOver, Takes;
      var red := TakesPart(Red);
      var blue := TakesPart(Blue);
      if (red ==> AllianceFinished(Some(Red))) && (blue ==> AllianceFinished(Some(Blue))) {
        assert forall a: Alliance :: Takes(View(), a) ==> Finished(View(), Some(a)) by {
          forall a: Alliance | Takes(View(), a) ensures Finished(View(), Some(a)) {
            if a.Red? {
            } else {
            }
          }
        }
        EndChallengeRun();
      }
      Broadcast(world);
    }

    // ── Challenge runs ──────────────────────────────────────────────

    method CheckCanFinish(a: Alliance) returns (elapsed: Option<real>)
      ensures elapsed == if CanFinish(View(), a) then Some(RunElapsed(View())) else None
    {
      if !CountUp(config) || !Running(phase) {
        return None;
      }
      var takes := TakesPart(a);
      if !takes || AllianceFinished(Some(a)) {
        return None;
      }
      if runStartedAt.None? || clock.total < runStartedAt.value {
        return Some(0.0);
      }
      return Some(clock.total - runStartedAt.value);
    }

    method RecordFinish(world: Env, a: Alliance, elapsed: real, cause: Disabler)
      modifies this
      ensures View() == Spec.RecordFinish(world, old(View()), a, elapsed, cause)
    {
      hide Spec.EndRunIfEveryoneFinished, AllianceDown;
      ghost var e := View();
      tally := tally[a := tally[a].(finishedAt := Some(elapsed))];
      HoldAllianceDown(a, cause);
      assert View() == Home(e, a, elapsed, cause);
      EndRunIfEveryoneFinished(world);
    }

    method HoldAllianceDown(a: Alliance, cause: Disabler)
      modifies `states
      ensures states == AllianceDown(old(states), a, cause)
    {
      hide DownFor;
      ghost var was := states;
      for i := 0 to |STATIONS|
        invariant forall s: Station :: states[s] == if s in STATIONS[..i] then DownFor(was[s], a, cause) else was[s]
      {
        NextListed(i);
        HoldIfOn(STATIONS[i], a, cause);
      }
      AllListed();
    }

    method HoldIfOn(s: Station, a: Alliance, cause: Disabler)
      modifies `states
      ensures states == old(states)[s := DownFor(old(states)[s], a, cause)]
    {
      if states[s].joined && states[s].alliance == Some(a) {
        states := states[s := states[s].(enabled := false, disabledBy := Some(cause))];
      } else {
        assert states == states[s := states[s]];
      }
    }

    method ChallengeFinish(world: Env, a: Alliance)
      modifies this
      ensures View() == Spec.ChallengeFinish(world, old(View()), a)
    {
      hide Spec.RecordFinish, CanFinish, RunElapsed;
      if FmsHandoff(config) {
        return;
      }
      var elapsed := CheckCanFinish(a);
      if elapsed.Some? {
        RecordFinish(world, a, elapsed.value, ByAdmin);
      }
    }

    method BringHome(a: Alliance, elapsed: real)
      requires elapsed == RunElapsed(View())
      modifies `tally, `states
      ensures View() == LegDone(old(View()), a)
    {
      var runner := RelayRunner(a);
      tally := tally[a := tally[a].(splits := tally[a].splits + [elapsed])];
      if runner.Some? {
        HoldDown(runner.value, ByRelay);
      }
    }

    method RelayAdvance(world: Env, a: Alliance)
      modifies this
      ensures View() == Spec.RelayAdvance(world, old(View()), a)
    {
      hide Spec.RecordFinish, CanFinish, RunElapsed, LegDone, Spec.EnableStation, Spec.Broadcast, Runner;
      if !FmsHandoff(config) {
        return;
      }
      var elapsed := CheckCanFinish(a);
      if elapsed.None? {
        return;
      }
      BringHome(a, elapsed.value);
      var next := RelayRunner(a);
      if next.None? {
        RecordFinish(world, a, elapsed.value, ByRelay);
      } else {
        EnableStation(world, next.value, TeleOpMode);
        Broadcast(world);
      }
    }

    method RelayHandoffFromDisable(world: Env, s: Station)
      modifies this
      ensures View() == HandoffFromDisable(world, old(View()), s)
    {
      hide Spec.RelayAdvance, Runner;
      if FmsHandoff(config) && config.value.challenge.value.handoff.FromDs? && Running(phase) {
        var a := states[s].alliance;
        if a.Some? && RelayRunner(a.value) == Some(s) {
          RelayAdvance(world, a.value);
        }
      }
    }

    // ── Coming out of an e-stop ─────────────────────────────────────

    function StoppedStations(): (stopped: set<Station>)
      reads this
      ensures forall s: Station :: s in stopped <==> EStopped(View(), s)
    {
      set s: Station | fieldEStop || states[s].eStop
    }

    method ReleaseOne(s: Station, wasStopped: bool)
      modifies `states
      ensures states == old(states)[s := CameOut(old(states)[s],
                          wasStopped && !fieldEStop && !old(states)[s].eStop && old(states)[s].joined && Active(phase))]
    {
      if wasStopped && !IsEStopped(s) && states[s].joined && IsMatchActive() {
        states := states[s := states[s].(enabled := false, disabledBy := Some(ByEStop))];
      } else {
        assert states == states[s := states[s]];
      }
    }

    method ReleaseAll(stopped: set<Station>)
      modifies `states
      ensures forall s: Station :: states[s] ==
                CameOut(old(states)[s], s in stopped && !fieldEStop && !old(states)[s].eStop && old(states)[s].joined && Active(phase))
    {
      hide CameOut, Active;
      ghost var was := states;
      for i := 0 to |STATIONS|
        invariant forall s: Station | s !in STATIONS[..i] :: states[s] == was[s]
        invariant forall s: Station | s in STATIONS[..i] ::
                    states[s] == CameOut(was[s], s in stopped && !fieldEStop && !was[s].eStop && was[s].joined && Active(phase))
      {
        NextListed(i);
        ReleaseOne(STATIONS[i], STATIONS[i] in stopped);
      }
      AllListed();
    }

    /** Each station the change just made lifts out of its e-stop. */
    method ReleaseFrom(stopped: set<Station>, ghost before: Engine)
      requires forall s: Station :: s in stopped <==> EStopped(before, s)
      modifies `states
      ensures View() == Lifting(before, old(View()))
    {
      hide CameOut, Active;
      ReleaseAll(stopped);
      assert states == Lifting(before, old(View())).st;
    }

    // ── Setting a match up ──────────────────────────────────────────

    /** A change to every station, one after the other. */
    method ForEachState(change: Control -> Control)
      modifies `states
      ensures states == map s: Station | s in old(states) :: change(old(states)[s])
    {
      ghost var was := states;
      for i := 0 to |STATIONS|
        invariant forall s: Station :: states[s] == if s in STATIONS[..i] then change(was[s]) else was[s]
      {
        NextListed(i);
        states := states[STATIONS[i] := change(states[STATIONS[i]])];
      }
      AllListed();
    }

    static lemma NoTalliesIs(tally: Tallies, r: Tallies)
      requires r == tally[Red := NO_TALLY][Blue := NO_TALLY]
      ensures r == map a: Alliance | a in tally :: NO_TALLY
    {
      forall a: Alliance ensures r[a] == NO_TALLY {
        match a
        case Red =>
        case Blue =>
      }
    }

    static function NoTallies(tally: Tallies): (none: Tallies)
      ensures none == map a: Alliance | a in tally :: NO_TALLY
    {
      NoTalliesIs(tally, tally[Red := NO_TALLY][Blue := NO_TALLY]);
      tally[Red := NO_TALLY][Blue := NO_TALLY]
    }

    method ResetStates()
      modifies `states
      ensures states == SetUp(old(View())).st
    {
      ForEachState(NewControl);
    }

    method UnjoinAll()
      modifies `states
      ensures states == Unjoined(old(states))
    {
      ForEachState(Left);
    }

    method ClearStates()
      modifies `states
      ensures states == Cleared(old(View())).st
    {
      ForEachState(ClearedControl);
    }

    static lemma LiftsNobody(before: Engine, after: Engine)
      requires !Active(after.phase)
      ensures Lifting(before, after) == after
    {
    }

    method CreateMatch(world: Env)
      modifies this
      ensures View() == Spec.CreateMatch(world, old(View()))
    {
      hide Spec.Broadcast;
      if !phase.Idle? && !phase.PostMatch? {
        return;
      }
      ResetForNewMatch();
      Broadcast(world);
    }

    /** Nobody is joined any more, so the e-stops this lifts mark nobody. */
    method ResetAndRelease()
      requires !Active(phase)
      modifies `states
      ensures states == SetUp(old(View())).st
    {
      hide Lifting, NewControl, SetUp;
      ghost var before := View();
      var stopped := StoppedStations();
      ResetStates();
      LiftsNobody(before, View());
      ReleaseFrom(stopped, before);
    }

    method ResetForNewMatch()
      requires !Active(phase)
      modifies this
      ensures View() == SetUp(old(View()))
    {
      hide NewControl, NoTallies;
      ResetAndRelease();
      pendingConfig := if pendingConfig.challenge.Some? then pendingConfig else OFFICIAL;
      config, autoWinner := None, None;
      tally := NoTallies(tally);
      phase := Created;
    }

    method CancelMatch(world: Env)
      modifies this
      ensures View() == Spec.CancelMatch(world, old(View()))
    {
      hide Spec.Broadcast, Unjoined;
      if !phase.Created? {
        return;
      }
      UnjoinAll();
      phase := Idle;
      Broadcast(world);
    }

    method ClearMatch(world: Env)
      modifies this
      ensures View() == Spec.ClearMatch(world, old(View()))
    {
      hide Spec.Broadcast, Cleared;
      if !phase.PostMatch? {
        return;
      }
      TearDown();
      Broadcast(world);
    }

    method TearDown()
      modifies this
      ensures View() == Cleared(old(View()))
    {
      hide Lifting, ClearedControl;
      clock := StopTick(clock).(remaining := 0.0);
      config, phase, autoWinner := None, Idle, None;
      ghost var before := View();
      var stopped := StoppedStations();
      ClearStates();
      LiftsNobody(before, View());
      ReleaseFrom(stopped, before);
    }

    method UpdateMatchConfig(world: Env, request: Request)
      modifies this
      ensures View() == UpdateConfig(world, old(View()), request)
    {
      hide Spec.Broadcast, ConfigFor;
      if !phase.Created? {
        return;
      }
      pendingConfig := ConfigFor(request);
      Broadcast(world);
    }

    method JoinStationAlliance(world: Env, s: Station, a: Alliance)
      modifies this
      ensures View() == Join(world, old(View()), s, a)
    {
      hide Spec.Broadcast, Full;
      if !phase.Created? {
        return;
      }
      var full := AllianceFull(a);
      if full || (states[s].joined && states[s].alliance == Some(a)) {
        return;
      }
      Seat(s, if states[s].joined then states[s].(alliance := Some(a)) else states[s].(joined := true, alliance := Some(a)));
      Broadcast(world);
    }

    method Seat(s: Station, c: Control)
      modifies `states
      ensures View() == Put(old(View()), s, c)
    {
      states := states[s := c];
    }

    method SwapStationAlliance(world: Env, s: Station)
      modifies this
      ensures View() == SwapAlliance(world, old(View()), s)
    {
      hide Spec.Broadcast, Full;
      if !phase.Created? || !states[s].joined || states[s].alliance.None? {
        return;
      }
      var a := Other(states[s].alliance.value);
      var full := AllianceFull(a);
      if !full {
        states := states[s := states[s].(alliance := Some(a))];
        Broadcast(world);
      }
    }

    method KickStation(world: Env, s: Station)
      modifies this
      ensures View() == Kick(world, old(View()), s)
    {
      hide Spec.Broadcast;
      if phase.Created? && states[s].joined {
        states := states[s := Left(states[s])];
        Broadcast(world);
      }
    }

    /** `changed` holds the stations whose robot is no longer the one that joined. */
    method ReconcileJoinedTeams(world: Env, changed: set<Station>)
      modifies this
      ensures View() == Reconcile(world, old(View()), changed)
    {
      hide Spec.Broadcast, Dropped;
      if !phase.Created? {
        return;
      }
      var any := AnyChanged(changed);
      if any {
        DropChanged(changed);
        Broadcast(world);
      }
    }

    method DropIfChanged(s: Station, changed: bool)
      modifies `states
      ensures states == old(states)[s := Dropped(old(states)[s], changed)]
    {
      if changed && states[s].joined {
        states := states[s := Left(states[s])];
      } else {
        assert states == states[s := states[s]];
      }
    }

    method AnyChanged(changed: set<Station>) returns (any: bool)
      ensures any <==> exists s: Station :: s in changed && states[s].joined
    {
      for i := 0 to |STATIONS|
        invariant forall s: Station | s in STATIONS[..i] :: !(s in changed && states[s].joined)
      {
        NextListed(i);
        if STATIONS[i] in changed && states[STATIONS[i]].joined {
          return true;
        }
      }
      AllListed();
      return false;
    }

    method DropChanged(changed: set<Station>)
      modifies `states
      ensures states == map s: Station | s in old(states) :: Dropped(old(states)[s], s in changed)
    {
      hide Dropped;
      ghost var was := states;
      for i := 0 to |STATIONS|
        invariant forall s: Station :: states[s] == if s in STATIONS[..i] then Dropped(was[s], s in changed) else was[s]
      {
        NextListed(i);
        DropIfChanged(STATIONS[i], STATIONS[i] in changed);
      }
      AllListed();
    }

    method LeaveStation(world: Env, s: Station)
      modifies this
      ensures View() == Leave(world, old(View()), s)
    {
      hide Spec.Broadcast, Spec.EndRunIfEveryoneFinished, AnyJoined, Spec.EndNow;
      if !states[s].joined {
        return;
      }
      var wasActive := IsMatchActive();
      DepartFrom(s);
      var any := AnyoneJoined();
      if wasActive && !any {
        EndNow();
        Broadcast(world);
      } else if wasActive && Running(phase) && CountUp(config) {
        EndRunIfEveryoneFinished(world);
      } else {
        Broadcast(world);
      }
    }

    method DepartFrom(s: Station)
      modifies `states
      ensures View() == Departed(old(View()), s)
    {
      if IsMatchActive() {
        states := states[s := states[s].(enabled := false)];
      }
      states := states[s := Left(states[s])];
      assert View().st == Departed(old(View()), s).st;
    }

    // ── Running a match ─────────────────────────────────────────────

    method StartMatch(world: Env, gates: bool)
      modifies this
      ensures View() == Spec.StartMatch(world, old(View()), gates)
    {
      hide Spec.Broadcast, JoinedOf, WinnerKnown, Lined, AnyJoined;
      if !phase.Created? || !gates || fieldEStop {
        return;
      }
      var any := AnyoneJoined();
      if !any || !WinnerKnown(pendingConfig, autoWinner) {
        return;
      }
      Line(world);
      Broadcast(world);
    }

    /** The countdown begins. */
    method Line(world: Env)
      modifies this
      ensures View() == Started(world, old(View()))
    {
      hide JoinedOf, Lined, StartWinner, StartTick, NoTallies, Started;
      ghost var e := View();
      OrderAndLineUp();
      Settle();
      phase := Countdown;
      clock := StartTick(clock, world.now).(remaining := COUNTDOWN_SECONDS, total := 0.0, dropped := 0.0, expiries := 0, longest := 0.0);
      StartedIs(world, e, View());
    }

    method OrderAndLineUp()
      modifies `relayOrder, `states
      ensures View() == old(View()).(order := relayOrder, st := states)
      ensures relayOrder == map a: Alliance | a in old(relayOrder) :: JoinedOf(old(View()), a, STATIONS)
      ensures states == map s: Station | s in old(states) :: Lined(old(View()), old(states)[s])
    {
      hide JoinedOf, Lined;
      ghost var e := View();
      FreezeOrder();
      LineUp(e);
    }

    static lemma StartedIs(world: Env, e: Engine, e': Engine)
      requires e' == e.(config := Some(e.pending), tally := e'.tally, runStartedAt := None, winner := StartWinner(e.pending, e.winner),
                        order := e'.order, phase := Countdown, st := e'.st, clock := e'.clock)
      requires e'.tally == map a: Alliance | a in e.tally :: NO_TALLY
      requires e'.order == map a: Alliance | a in e.order :: JoinedOf(e, a, STATIONS)
      requires e'.st == map s: Station | s in e.st :: Lined(e, e.st[s])
      requires e'.clock == StartTick(e.clock, world.now).(remaining := COUNTDOWN_SECONDS, total := 0.0,
                                                          dropped := 0.0, expiries := 0, longest := 0.0)
      ensures e' == Started(world, e)
    {
      hide JoinedOf, Lined, StartWinner, StartTick;
    }

    method Settle()
      modifies `config, `autoWinner, `tally, `runStartedAt
      ensures config == Some(pendingConfig) && runStartedAt.None?
      ensures autoWinner == StartWinner(pendingConfig, old(autoWinner))
      ensures tally == NoTallies(old(tally))
    {
      autoWinner := StartWinner(pendingConfig, autoWinner);
      config := Some(pendingConfig);
      tally := NoTallies(tally);
      runStartedAt := None;
    }

    method FreezeOrder()
      modifies `relayOrder
      ensures relayOrder == map a: Alliance | a in old(relayOrder) :: JoinedOf(old(View()), a, STATIONS)
    {
      hide JoinedOf;
      var red := AllianceStations(Red);
      var blue := AllianceStations(Blue);
      relayOrder := FrozenOrder(relayOrder, red, blue, View());
    }

    static lemma FrozenOrderIs(order: Orders, red: seq<Station>, blue: seq<Station>, e: Engine, r: Orders)
      requires red == JoinedOf(e, Red, STATIONS) && blue == JoinedOf(e, Blue, STATIONS)
      requires r == order[Red := red][Blue := blue]
      ensures r == map a: Alliance | a in order :: JoinedOf(e, a, STATIONS)
    {
      hide JoinedOf;
      forall a: Alliance ensures r[a] == JoinedOf(e, a, STATIONS) {
        match a
        case Red =>
        case Blue =>
      }
    }

    static function FrozenOrder(order: Orders, red: seq<Station>, blue: seq<Station>, ghost e: Engine): (frozen: Orders)
      requires red == JoinedOf(e, Red, STATIONS) && blue == JoinedOf(e, Blue, STATIONS)
      ensures frozen == map a: Alliance | a in order :: JoinedOf(e, a, STATIONS)
    {
      FrozenOrderIs(order, red, blue, e, order[Red := red][Blue := blue]);
      order[Red := red][Blue := blue]
    }

    method LineUp(ghost e: Engine)
      requires e.pending == pendingConfig
      modifies `states
      ensures states == map s: Station | s in old(states) :: Lined(e, old(states)[s])
    {
      var auto := !pendingConfig.skipAuto && pendingConfig.autoDuration > 0.0;
      ForEachState((c: Control) => c.(enabled := false,
                                      disabledBy := if c.eStop then c.disabledBy else None,
                                      aStop := c.aStop && c.joined,
                                      mode := if c.joined && auto then AutoMode else TeleOpMode));
    }

    method AbortCountdown(world: Env)
      modifies this
      ensures View() == Spec.AbortCountdown(world, old(View()))
    {
      hide Spec.Broadcast, BackToSetup;
      if phase.Countdown? {
        phase := Created;
        clock := StopTick(clock).(remaining := 0.0);
        SeatAgain();
        Broadcast(world);
      }
    }

    method SeatAgain()
      modifies `states
      ensures states == Aborted(old(View())).st
    {
      ForEachState(BackToSetup);
    }

    method StopMatch(world: Env)
      modifies this
      ensures View() == Spec.StopMatch(world, old(View()))
    {
      hide Spec.Broadcast, Spec.EndNow;
      if IsMatchActive() {
        EndNow();
        Broadcast(world);
      }
    }

    method PauseMatch(world: Env)
      modifies this
      ensures View() == Spec.PauseMatch(world, old(View()))
    {
      hide Spec.Broadcast, DisabledAll;
      if phase.Paused? && resuming {
        resuming := false;
        Broadcast(world);
        return;
      }
      if !Running(phase) {
        return;
      }
      PutOnHold();
      Broadcast(world);
    }

    method PutOnHold()
      modifies `prePausePhase, `phase, `clock, `states
      ensures View() == OnHold(old(View()))
    {
      hide DisabledAll;
      prePausePhase := Some(phase);
      phase := Paused;
      clock := StopTick(clock);
      DisableAll();
    }

    method ResumeMatch(world: Env)
      modifies this
      ensures View() == Spec.ResumeMatch(world, old(View()))
    {
      hide Spec.Broadcast;
      if phase.Paused? && !resuming {
        resuming := true;
        Broadcast(world);
      }
    }

    /** The resume timer fires. */
    method CompleteResume(world: Env)
      modifies this
      ensures View() == Spec.CompleteResume(world, old(View()))
    {
      hide Spec.Broadcast, Spec.EnableParticipating;
      resuming := false;
      if !phase.Paused? {
        return;
      }
      phase := if prePausePhase.Some? then prePausePhase.value else Teleop;
      prePausePhase := None;
      EnableParticipating(world, if phase.Auto? then AutoMode else TeleOpMode);
      clock := StartTick(clock, world.now);
      Broadcast(world);
    }

    method SetAutoWinner(world: Env, a: Alliance)
      modifies this
      ensures View() == SetWinner(world, old(View()), a)
    {
      hide Spec.Broadcast;
      autoWinner := Some(a);
      if phase.AutoPause? && config.Some? && config.value.autoWinner.AskReferee? {
        clock := StartTick(clock, world.now);
      }
      Broadcast(world);
    }

    // ── The robots going live ───────────────────────────────────────

    static function AfterAuto(c: Control, mode: Mode): Control {
      if mode.TeleOpMode? then c.(aStop := false) else c
    }

    /** Whether a station in state `c` is enabled with the others. */
    static predicate GoesOn(world: Env, latch: bool, s: Station, c: Control, finished: bool, awaits: bool) {
      && c.joined && !finished && !awaits
      && s !in world.forbidden && !latch && !c.eStop && !c.aStop && c.disabledBy != Some(ByEStop)
    }

    static function TakingPart(world: Env, latch: bool, s: Station, c: Control, finished: bool, awaits: bool, mode: Mode): Control {
      if !c.joined || finished then c
      else if awaits then c.(enabled := false, disabledBy := Some(ByRelay))
      else if s in world.forbidden then c.(enabled := false)
      else if GoesOn(world, latch, s, c, finished, awaits) then c.(enabled := true, mode := mode, disabledBy := None)
      else c
    }

    static lemma TakingPartAs(world: Env, r: Engine, s: Station, finished: bool, awaits: bool, mode: Mode)
      requires finished == Finished(r, r.st[s].alliance) && awaits == AwaitsLeg(r, s)
      ensures Participating(world, r, s, mode) == TakingPart(world, r.latch, s, r.st[s], finished, awaits, mode)
      ensures GoesLive(world, r, s) && MayEnable(world, r, s) <==> GoesOn(world, r.latch, s, r.st[s], finished, awaits)
    {
    }

    static lemma AfterAutoIs(e: Engine, s: Station, mode: Mode)
      ensures var r := AStopsReleased(e, mode);
              && r.st[s] == AfterAuto(e.st[s], mode) && r.latch == e.latch
              && Finished(r, r.st[s].alliance) == Finished(e, e.st[s].alliance) && AwaitsLeg(r, s) == AwaitsLeg(e, s)
    {
    }

    /** What becomes of station `s` of engine `e`, and whether it goes on. */
    static ghost function PartOf(world: Env, e: Engine, s: Station, mode: Mode): Control {
      TakingPart(world, e.latch, s, AfterAuto(e.st[s], mode), Finished(e, e.st[s].alliance), AwaitsLeg(e, s), mode)
    }

    static ghost predicate OnOf(world: Env, e: Engine, s: Station, mode: Mode) {
      GoesOn(world, e.latch, s, AfterAuto(e.st[s], mode), Finished(e, e.st[s].alliance), AwaitsLeg(e, s))
    }

    static lemma PartIs(world: Env, e: Engine, s: Station, mode: Mode)
      ensures var r := AStopsReleased(e, mode);
              && Participating(world, r, s, mode) == PartOf(world, e, s, mode)
              && (GoesLive(world, r, s) && MayEnable(world, r, s) <==> OnOf(world, e, s, mode))
    {
      hide AStopsReleased, Participating, GoesLive, MayEnable, TakingPart, GoesOn, AfterAuto, Finished, AwaitsLeg;
      AfterAutoIs(e, s, mode);
      var r := AStopsReleased(e, mode);
      TakingPartAs(world, r, s, Finished(r, r.st[s].alliance), AwaitsLeg(r, s), mode);
    }

    method ReleaseAStop(s: Station, mode: Mode)
      modifies `states
      ensures states == old(states)[s := AfterAuto(old(states)[s], mode)]
    {
      if mode.TeleOpMode? && states[s].aStop {
        states := states[s := states[s].(aStop := false)];
      } else {
        assert states == states[s := states[s]];
      }
    }

    method TakePart(world: Env, s: Station, mode: Mode, finished: bool, awaits: bool)
      modifies `states, `heard
      ensures states == old(states)[s := TakingPart(world, fieldEStop, s, old(states)[s], finished, awaits, mode)]
      ensures heard == Spec.MarkFmsEnabled(world, old(heard),
                  if GoesOn(world, fieldEStop, s, old(states)[s], finished, awaits) then {s} else {})
    {
      hide Spec.MarkFmsEnabled;
      MarkNone(world, heard);
      if !states[s].joined || finished {
        assert states == states[s := states[s]];
      } else if awaits {
        states := states[s := states[s].(enabled := false, disabledBy := Some(ByRelay))];
      } else {
        EnableStation(world, s, mode);
      }
    }

    /** One station's part in the robots going live. */
    method Participate(world: Env, s: Station, mode: Mode, finished: bool, awaits: bool)
      modifies `states, `heard
      ensures states == old(states)[s := TakingPart(world, fieldEStop, s, AfterAuto(old(states)[s], mode), finished, awaits, mode)]
      ensures heard == Spec.MarkFmsEnabled(world, old(heard),
                  if GoesOn(world, fieldEStop, s, AfterAuto(old(states)[s], mode), finished, awaits) then {s} else {})
    {
      hide Spec.MarkFmsEnabled, TakingPart, GoesOn, AfterAuto;
      ReleaseAStop(s, mode);
      TakePart(world, s, mode, finished, awaits);
    }

    static lemma MarkNone(world: Env, h: Heard)
      ensures Spec.MarkFmsEnabled(world, h, {}) == h
    {
    }

    static lemma MarkMore(world: Env, h: Heard, some: set<Station>, more: set<Station>)
      ensures Spec.MarkFmsEnabled(world, Spec.MarkFmsEnabled(world, h, some), more) == Spec.MarkFmsEnabled(world, h, some + more)
    {
    }

    /** The first `i` stations have taken part, and those of them that are
        live are `live`. */
    static ghost predicate Through(world: Env, e: Engine, mode: Mode, st: Controls, live: set<Station>, i: nat) {
      && i <= |STATIONS|
      && (forall s: Station | s in STATIONS[..i] :: st[s] == PartOf(world, e, s, mode))
      && (forall s: Station | s !in STATIONS[..i] :: st[s] == e.st[s])
      && (forall s: Station :: s in live <==> (s in STATIONS[..i] && OnOf(world, e, s, mode)))
    }

    static lemma ThroughNext(world: Env, e: Engine, mode: Mode, st: Controls, live: set<Station>, i: nat)
      requires i < |STATIONS| && Through(world, e, mode, st, live, i)
      ensures st[STATIONS[i]] == e.st[STATIONS[i]]
      ensures var s := STATIONS[i];
              Through(world, e, mode, st[s := PartOf(world, e, s, mode)], live + if OnOf(world, e, s, mode) then {s} else {}, i + 1)
    {
      hide PartOf, OnOf;
      NextListed(i);
    }

    method EnableParticipating(world: Env, mode: Mode)
      modifies `states, `heard
      ensures View() == Spec.EnableParticipating(world, old(View()), mode)
    {
      hide Runner, PartOf, OnOf, Spec.MarkFmsEnabled, Spec.EnableParticipating, FmsHandoff, Through, AfterAuto, GoesOn, TakingPart;
      ghost var e := View();
      var red, blue := RelayRunner(Red), RelayRunner(Blue);
      var relay := FmsHandoff(config);
      ghost var live: set<Station> := {};
      MarkNone(world, heard);
      NoneThrough(world, e, mode);
      for i := 0 to |STATIONS|
        invariant Through(world, e, mode, states, live, i)
        invariant heard == Spec.MarkFmsEnabled(world, e.heard, live)
      {
        var s := STATIONS[i];
        ThroughNext(world, e, mode, states, live, i);
        ghost var more := if OnOf(world, e, s, mode) then {s} else {};
        var awaits := relay && red != Some(s) && blue != Some(s);
        PartOfIs(world, e, s, mode, awaits);
        MarkMore(world, e.heard, live, more);
        Participate(world, s, mode, AllianceFinished(states[s].alliance), awaits);
        live := live + more;
      }
      AllThrough(world, e, mode, states, live);
      AllTakePart(world, e, mode, states, live);
    }

    static lemma PartOfIs(world: Env, e: Engine, s: Station, mode: Mode, awaits: bool)
      requires awaits == AwaitsLeg(e, s)
      ensures PartOf(world, e, s, mode)
              == TakingPart(world, e.latch, s, AfterAuto(e.st[s], mode), Finished(e, e.st[s].alliance), awaits, mode)
      ensures OnOf(world, e, s, mode) == GoesOn(world, e.latch, s, AfterAuto(e.st[s], mode), Finished(e, e.st[s].alliance), awaits)
    {
    }

    static lemma NoneThrough(world: Env, e: Engine, mode: Mode)
      ensures Through(world, e, mode, e.st, {}, 0)
    {
    }

    static lemma AllThrough(world: Env, e: Engine, mode: Mode, st: Controls, live: set<Station>)
      requires Through(world, e, mode, st, live, |STATIONS|)
      ensures forall s: Station :: st[s] == PartOf(world, e, s, mode)
      ensures forall s: Station :: s in live <==> OnOf(world, e, s, mode)
    {
      hide PartOf, OnOf;
      AllListed();
    }

    static lemma AllTakePart(world: Env, e: Engine, mode: Mode, st: Controls, live: set<Station>)
      requires forall s: Station :: st[s] == PartOf(world, e, s, mode)
      requires forall s: Station :: s in live <==> OnOf(world, e, s, mode)
      ensures Spec.EnableParticipating(world, e, mode) == e.(st := st, heard := Spec.MarkFmsEnabled(world, e.heard, live))
    {
      hide PartOf, OnOf, Participating, GoesLive, MayEnable, AStopsReleased, Spec.MarkFmsEnabled;
      var r := AStopsReleased(e, mode);
      forall s: Station
        ensures st[s] == Participating(world, r, s, mode) && (s in live <==> GoesLive(world, r, s) && MayEnable(world, r, s)) {
        PartIs(world, e, s, mode);
      }
      EngineMark.ReleaseAt(e, Slot1, mode);
      assert Spec.EnableParticipating(world, e, mode).st == st;
      assert live == set s: Station | GoesLive(world, r, s) && MayEnable(world, r, s);
    }

    // ── Stops ───────────────────────────────────────────────────────

    method FieldEStop(world: Env)
      modifies this
      ensures View() == Spec.FieldEStop(world, old(View()))
    {
      hide Spec.Broadcast, DisabledAll, Spec.EndNow;
      fieldEStop := true;
      resuming := false;
      DisableAll();
      if IsMatchActive() {
        prePausePhase := None;
        EndNow();
      }
      Broadcast(world);
    }

    method TakeUpOne(s: Station, saved: SavedStops)
      modifies `states
      ensures states == old(states)[s := TakenUp(old(states)[s], saved, s)]
    {
      if s in saved.stations && saved.stations[s] {
        states := states[s := states[s].(eStop := true)];
      }
    }

    method TakeUpEStops(saved: SavedStops)
      modifies `states
      ensures states == map s: Station | s in old(states) :: TakenUp(old(states)[s], saved, s)
    {
      hide TakenUp;
      ghost var was := states;
      for i := 0 to |STATIONS|
        invariant forall s: Station :: states[s] == if s in STATIONS[..i] then TakenUp(was[s], saved, s) else was[s]
      {
        NextListed(i);
        TakeUpOne(STATIONS[i], saved);
      }
      AllListed();
    }

    method TakeUp(saved: SavedStops, now: int)
      modifies `states, `fieldEStop, `stops
      ensures View() == Restored(old(View()), saved, now)
    {
      hide TakenUp;
      fieldEStop := saved.field;
      TakeUpEStops(saved);
      if saved.field || saved.stations != map[] {
        stops := stops.(silenceFrom := now + RESTORED_STOP_QUIET_MS - DS_CONTROL_QUIET_MS);
      }
    }

    /** The stops the run before this one left, taken up one by one. */
    method TrackStops(world: Env, saved: Option<SavedStops>)
      modifies this
      ensures View() == Spec.TrackStops(world, old(View()), saved)
    {
      hide Spec.Broadcast, Restored;
      if saved.Some? {
        TakeUp(saved.value, world.now);
      }
      Broadcast(world);
    }

    method AnyWaiting(evenOwn: bool) returns (any: bool)
      ensures any <==> exists s: Station :: s in stops.waits && (evenOwn || !states[s].eStop)
    {
      for i := 0 to |STATIONS|
        invariant forall s: Station | s in STATIONS[..i] :: !(s in stops.waits && (evenOwn || !states[s].eStop))
      {
        NextListed(i);
        if STATIONS[i] in stops.waits && (evenOwn || !states[STATIONS[i]].eStop) {
          return true;
        }
      }
      AllListed();
      return false;
    }

    method ClearFieldEStop(world: Env)
      modifies this
      ensures View() == Spec.ClearFieldEStop(world, old(View()))
    {
      hide Spec.Broadcast, Lifting;
      if !fieldEStop {
        return;
      }
      var waiting := AnyWaiting(false);
      if waiting {
        return;
      }
      ghost var before := View();
      var stopped := StoppedStations();
      fieldEStop := false;
      ReleaseFrom(stopped, before);
      Broadcast(world);
    }

    method ClearEStop(world: Env, s: Station)
      modifies this
      ensures View() == Spec.ClearEStop(world, old(View()), s)
    {
      hide Spec.Broadcast, Lifting;
      if !fieldEStop && s in stops.waits {
        return;
      }
      ghost var before := View();
      var stopped := StoppedStations();
      Seat(s, states[s].(eStop := false));
      ReleaseFrom(stopped, before);
      Broadcast(world);
    }

    method ReleaseEveryone()
      modifies `states
      ensures states == map s: Station | s in old(states) :: old(states)[s].(eStop := false)
    {
      ForEachState((c: Control) => c.(eStop := false));
    }

    method ClearAllEStops(world: Env)
      modifies this
      ensures View() == Spec.ClearAllEStops(world, old(View()))
    {
      hide Spec.Broadcast, Lifting;
      var waiting := AnyWaiting(true);
      if waiting {
        return;
      }
      ghost var before := View();
      var stopped := StoppedStations();
      ReleaseEveryone();
      fieldEStop := false;
      assert View() == before.(latch := false, st := map s: Station | s in before.st :: before.st[s].(eStop := false));
      ReleaseFrom(stopped, before);
      Broadcast(world);
    }

    method StationEStop(world: Env, s: Station)
      modifies this
      ensures View() == Spec.StationEStop(world, old(View()), s)
    {
      hide Spec.Broadcast;
      Seat(s, states[s].(eStop := true, enabled := false));
      Broadcast(world);
    }

    method StationAStop(world: Env, s: Station)
      modifies this
      ensures View() == Spec.StationAStop(world, old(View()), s)
    {
      hide Spec.Broadcast;
      if CanAStopNow() && states[s].joined && !states[s].aStop {
        Seat(s, states[s].(aStop := true, enabled := false));
        Broadcast(world);
      }
    }

    predicate CanAStopNow()
      reads this
      ensures CanAStopNow() == CanAStop(View())
    {
      phase.Created? || phase.Countdown? || phase.Auto? || (phase.Paused? && prePausePhase == Some(Auto))
    }

    method StationClearAStop(world: Env, s: Station)
      modifies this
      ensures View() == ClearAStop(world, old(View()), s)
    {
      hide Spec.Broadcast;
      if phase.Created? && states[s].aStop {
        Seat(s, states[s].(aStop := false));
        Broadcast(world);
      }
    }

    // ── Disable and Enable ──────────────────────────────────────────

    method StationDisable(world: Env, s: Station, self: bool)
      modifies this
      ensures View() == Disable(world, old(View()), s, self)
    {
      hide Spec.Broadcast, HandoffFromDisable, HeldDown;
      var wasEnabled := states[s].enabled;
      HoldDown(s, if self then BySelf else ByAdmin);
      Broadcast(world);
      if wasEnabled && self {
        RelayHandoffFromDisable(world, s);
      }
    }

    predicate MayUndisable(world: Env, s: Station, byAdmin: bool)
      reads this
      ensures MayUndisable(world, s, byAdmin) == Undisables(world, View(), s, byAdmin)
    {
      && s !in world.forbidden && Running(phase) && states[s].joined && !IsEStopped(s) && !states[s].aStop
      && (states[s].disabledBy == Some(ByAdmin) ==> byAdmin)
      && !AllianceFinished(states[s].alliance)
      && (FmsHandoff(config) && states[s].alliance.Some? ==> RelayRunner(states[s].alliance.value) == Some(s))
      && !states[s].enabled
    }

    method Undisable(world: Env, s: Station, byAdmin: bool)
      modifies this
      ensures View() == Spec.Undisable(world, old(View()), s, byAdmin)
    {
      hide Spec.Broadcast, Undisables, Spec.MarkFmsEnabled;
      if !MayUndisable(world, s, byAdmin) {
        return;
      }
      Seat(s, states[s].(mode := if phase.Auto? then AutoMode else TeleOpMode, enabled := true, disabledBy := None));
      MarkFmsEnabled(world, s);
      Broadcast(world);
    }

    // ── What the field hears ────────────────────────────────────────

    method Hear(s: Station, enabled: bool, now: int)
      modifies `heard
      ensures View() == HeardFrom(old(View()), s, enabled, now)
    {
      if enabled {
        heard := heard.(enabledSeen := heard.enabledSeen + {s});
      }
      heard := heard.(heartbeat := heard.heartbeat[s := now]);
    }

    method NoteHeartbeat(world: Env, s: Station, enabled: bool)
      modifies this
      ensures View() == Spec.NoteHeartbeat(world, old(View()), s, enabled)
    {
      hide Spec.Broadcast, Spec.Undisable, Attached;
      var wasAttached := IsDsAttached(s, world.now);
      Hear(s, enabled, world.now);
      if !wasAttached {
        if states[s].disabledBy == Some(ByDs) && Running(phase) {
          Undisable(world, s, false);
        }
        Broadcast(world);
      }
    }

    method DsReportedStatus(world: Env, s: Station, status: Status)
      modifies this
      ensures View() == DsStatus(world, old(View()), s, status)
    {
      hide Spec.NoteHeartbeat, HonourStatus;
      NoteHeartbeat(world, s, status.enabled);
      Honour(world, s, status);
    }

    predicate DriverHasDisabled(world: Env, s: Station, status: Status)
      reads this
      ensures DriverHasDisabled(world, s, status) == DriverDisabled(world, View(), s, status)
    {
      !status.enabled && states[s].enabled && (status.legacy || s in heard.enabledSeen)
      && (s !in heard.fmsEnable || world.now - heard.fmsEnable[s] > FMS_ENABLE_GRACE_MS) && status.comms
    }

    method Honour(world: Env, s: Station, status: Status)
      modifies this
      ensures View() == HonourStatus(world, old(View()), s, status)
    {
      hide Spec.Broadcast, HandoffFromDisable, HeldDown, CanAStop, DriverDisabled, Put, DriverHasDisabled, CanAStopNow;
      if status.eStop && !states[s].eStop {
        Seat(s, states[s].(eStop := true, enabled := false));
        Broadcast(world);
      } else if status.aStop && !states[s].aStop && states[s].joined && CanAStopNow() {
        Seat(s, states[s].(aStop := true, enabled := false));
        Broadcast(world);
      } else if DriverHasDisabled(world, s, status) {
        HonourDisable(world, s);
      }
    }

    method HonourDisable(world: Env, s: Station)
      modifies this
      ensures View() == HandoffFromDisable(world, Spec.Broadcast(world, HeldDown(old(View()), s, ByDs)), s)
    {
      hide Spec.Broadcast, HandoffFromDisable, HeldDown;
      HoldDown(s, ByDs);
      Broadcast(world);
      RelayHandoffFromDisable(world, s);
    }

    method NoteDsControl(world: Env, s: Station, enabled: Option<bool>)
      modifies this
      ensures View() == NoteControl(world, old(View()), s, enabled)
    {
      hide Spec.Broadcast;
      heard := heard.(control := heard.control[s := DsControl(world.now, enabled)]);
      if enabled == Some(true) && s in stops.since && s !in stops.waits {
        stops := stops.(waits := stops.waits + {s});
        Broadcast(world);
      } else if enabled == Some(false) && s in stops.waits {
        Broadcast(world);
      }
    }

    // ── The tick ────────────────────────────────────────────────────

    /** `pick` stands for the scores, or the coin when they are level. */
    method Tick(world: Env, pick: Alliance)
      modifies this
      ensures View() == Spec.Tick(world, old(View()), pick)
    {
      hide Spec.Broadcast, Spec.Transition;
      var elapsed := (world.now - clock.lastTick) as real / 1000.0;
      clock := clock.(lastTick := world.now, remaining := clock.remaining - elapsed, total := clock.total + elapsed,
                      longest := if elapsed > clock.longest then elapsed else clock.longest);
      Transition(world, pick);
      Broadcast(world);
    }

    method Transition(world: Env, pick: Alliance)
      modifies this
      ensures View() == Spec.Transition(world, old(View()), pick)
    {
      hide Spec.Broadcast, Spec.PhaseExpired, LetGo;
      if config.None? {
        return;
      }
      if phase.PostMatch? {
        if clock.remaining <= 0.0 {
          clock := StopTick(clock).(remaining := 0.0);
          LetStationsGo();
          Broadcast(world);
        }
        return;
      }
      if clock.remaining > 0.0 {
        if phase.Teleop? && clock.remaining <= config.value.endgameDuration {
          phase := Endgame;
        }
        return;
      }
      PhaseExpired(world, pick);
    }

    method LetStationsGo()
      modifies `states
      ensures states == Released(old(View())).st
    {
      ForEachState(LetGo);
    }

    method StartPhase(next: Phase, duration: real)
      modifies `phase, `clock
      ensures phase == next && clock == Expired(old(clock), duration)
    {
      phase := next;
      clock := clock.(remaining := duration, dropped := clock.dropped - clock.remaining, expiries := clock.expiries + 1);
    }

    method EnterTeleop(world: Env)
      requires config.Some?
      modifies this
      ensures View() == Spec.EnterTeleop(world, old(View()))
    {
      hide Spec.EnableParticipating, Expired;
      StartPhase(Teleop, config.value.teleopDuration);
      EnableParticipating(world, TeleOpMode);
    }

    method EnterAuto(world: Env)
      requires config.Some?
      modifies this
      ensures View() == Spec.EnableParticipating(world,
                  old(View()).(phase := Auto, clock := Expired(old(clock), old(config).value.autoDuration)), AutoMode)
    {
      hide Spec.EnableParticipating, Expired;
      StartPhase(Auto, config.value.autoDuration);
      EnableParticipating(world, AutoMode);
    }

    method EnterAutoPause()
      requires config.Some?
      modifies this
      ensures var e := old(View());
              var held := e.(phase := AutoPause, st := DisabledAll(e.st), clock := Expired(e.clock, e.config.value.pauseDuration));
              View() == if e.config.value.autoWinner.AskReferee? && e.winner.None? then held.(clock := StopTick(held.clock)) else held
    {
      hide DisabledAll, Expired;
      StartPhase(AutoPause, config.value.pauseDuration);
      DisableAll();
      if config.value.autoWinner.AskReferee? && autoWinner.None? {
        clock := StopTick(clock);
      }
    }

    method EndMatchByTimer()
      modifies `phase, `clock, `states
      ensures View() == EndByTimer(old(View()))
    {
      hide DisabledAll, Expired;
      StartPhase(PostMatch, POST_MATCH_COUNT_SECONDS);
      DisableAll();
    }

    method PhaseExpired(world: Env, pick: Alliance)
      requires config.Some?
      modifies this
      ensures View() == Spec.PhaseExpired(world, old(View()), pick)
    {
      hide Spec.EnableParticipating, Spec.EnterTeleop, AutoWinner, EndByTimer, DisabledAll, Expired;
      match phase
      case Countdown =>
        runStartedAt := Some(clock.total);
        if config.value.skipAuto || config.value.autoDuration <= 0.0 {
          EnterTeleop(world);
        } else {
          EnterAuto(world);
        }
      case Auto =>
        if config.value.pauseDuration > 0.0 || config.value.autoWinner.AskReferee? {
          EnterAutoPause();
        } else {
          autoWinner := AutoWinner(config.value, autoWinner, pick);
          EnterTeleop(world);
        }
      case AutoPause =>
        autoWinner := AutoWinner(config.value, autoWinner, pick);
        EnterTeleop(world);
      case Teleop => EndMatchByTimer();
      case Endgame => EndMatchByTimer();
      case _ =>
    }

    // ── Any step ────────────────────────────────────────────────────

    /** What holds of the engine between any two steps, the last at `now`. */
    ghost predicate Valid(now: int)
      reads this
    {
      EngineSafety.Safe(View()) && Settled(View()) && EngineClock.Clocked(View(), now)
    }

    method HandleSetup(world: Env, op: Op)
      requires op.DoCreate? || op.DoCancel? || op.DoClear? || op.DoConfig? || op.DoJoin? || op.DoSwap? || op.DoKick? || op.DoReconcile?
      modifies this
      ensures View() == Next(world, old(View()), op)
    {
      hide Spec.CreateMatch, Spec.CancelMatch, Spec.ClearMatch, UpdateConfig, Join, SwapAlliance, Kick, Reconcile, Leave, Spec.StartMatch,
        Spec.AbortCountdown, Spec.StopMatch, Spec.PauseMatch, Spec.ResumeMatch, Spec.CompleteResume, SetWinner, Spec.FieldEStop,
        Spec.ClearFieldEStop, Spec.StationEStop, Spec.StationAStop, ClearAStop, Spec.ClearEStop, Spec.ClearAllEStops, Disable,
        Spec.Undisable, Spec.ChallengeFinish, Spec.RelayAdvance, DsStatus, NoteControl, Spec.Tick, Spec.Broadcast;
      match op
      case DoCreate => CreateMatch(world);
      case DoCancel => CancelMatch(world);
      case DoClear => ClearMatch(world);
      case DoConfig(request) => UpdateMatchConfig(world, request);
      case DoJoin(s, a) => JoinStationAlliance(world, s, a);
      case DoSwap(s) => SwapStationAlliance(world, s);
      case DoKick(s) => KickStation(world, s);
      case DoReconcile(changed) => ReconcileJoinedTeams(world, changed);
    }

    predicate IsCourse(op: Op) {
      op.DoStart? || op.DoAbort? || op.DoStop? || op.DoPause? || op.DoResume? || op.ResumeTimer? || op.DoWinner? || op.TickTimer?
      || op.OtherBroadcast?
    }

    method HandleCourse(world: Env, op: Op)
      requires IsCourse(op)
      modifies this
      ensures View() == Next(world, old(View()), op)
    {
      hide Spec.CreateMatch, Spec.CancelMatch, Spec.ClearMatch, UpdateConfig, Join, SwapAlliance, Kick, Reconcile, Leave, Spec.StartMatch,
        Spec.AbortCountdown, Spec.StopMatch, Spec.PauseMatch, Spec.ResumeMatch, Spec.CompleteResume, SetWinner, Spec.FieldEStop,
        Spec.ClearFieldEStop, Spec.StationEStop, Spec.StationAStop, ClearAStop, Spec.ClearEStop, Spec.ClearAllEStops, Disable,
        Spec.Undisable, Spec.ChallengeFinish, Spec.RelayAdvance, DsStatus, NoteControl, Spec.Tick, Spec.Broadcast;
      match op
      case DoStart(gates) => StartMatch(world, gates);
      case DoAbort => AbortCountdown(world);
      case DoStop => StopMatch(world);
      case DoPause => PauseMatch(world);
      case DoResume => ResumeMatch(world);
      case ResumeTimer => CompleteResume(world);
      case DoWinner(a) => SetAutoWinner(world, a);
      case TickTimer(pick) => Tick(world, pick);
      case OtherBroadcast => Broadcast(world);
    }

    method HandleRun(world: Env, op: Op)
      requires op.DoLeave? || op.DoFinish? || op.DoRelay?
      modifies this
      ensures View() == Next(world, old(View()), op)
    {
      hide Spec.CreateMatch, Spec.CancelMatch, Spec.ClearMatch, UpdateConfig, Join, SwapAlliance, Kick, Reconcile, Leave, Spec.StartMatch,
        Spec.AbortCountdown, Spec.StopMatch, Spec.PauseMatch, Spec.ResumeMatch, Spec.CompleteResume, SetWinner, Spec.FieldEStop,
        Spec.ClearFieldEStop, Spec.StationEStop, Spec.StationAStop, ClearAStop, Spec.ClearEStop, Spec.ClearAllEStops, Disable,
        Spec.Undisable, Spec.ChallengeFinish, Spec.RelayAdvance, DsStatus, NoteControl, Spec.Tick, Spec.Broadcast;
      match op
      case DoLeave(s) => LeaveStation(world, s);
      case DoFinish(a) => ChallengeFinish(world, a);
      case DoRelay(a) => RelayAdvance(world, a);
    }

    predicate IsStop(op: Op) {
      op.DoFieldEStop? || op.DoClearField? || op.DoEStop? || op.DoAStop? || op.DoClearAStop? || op.DoClearEStop? || op.DoClearAll?
    }

    method HandleStop(world: Env, op: Op)
      requires IsStop(op)
      modifies this
      ensures View() == Next(world, old(View()), op)
    {
      hide Spec.CreateMatch, Spec.CancelMatch, Spec.ClearMatch, UpdateConfig, Join, SwapAlliance, Kick, Reconcile, Leave, Spec.StartMatch,
        Spec.AbortCountdown, Spec.StopMatch, Spec.PauseMatch, Spec.ResumeMatch, Spec.CompleteResume, SetWinner, Spec.FieldEStop,
        Spec.ClearFieldEStop, Spec.StationEStop, Spec.StationAStop, ClearAStop, Spec.ClearEStop, Spec.ClearAllEStops, Disable,
        Spec.Undisable, Spec.ChallengeFinish, Spec.RelayAdvance, DsStatus, NoteControl, Spec.Tick, Spec.Broadcast;
      match op
      case DoFieldEStop => FieldEStop(world);
      case DoClearField => ClearFieldEStop(world);
      case DoEStop(s) => StationEStop(world, s);
      case DoAStop(s) => StationAStop(world, s);
      case DoClearAStop(s) => StationClearAStop(world, s);
      case DoClearEStop(s) => ClearEStop(world, s);
      case DoClearAll => ClearAllEStops(world);
    }

    predicate IsReport(op: Op) { op.DoDisable? || op.DoUndisable? || op.StatusFrom? || op.ControlSeen? }

    method HandleReport(world: Env, op: Op)
      requires IsReport(op)
      modifies this
      ensures View() == Next(world, old(View()), op)
    {
      hide Spec.CreateMatch, Spec.CancelMatch, Spec.ClearMatch, UpdateConfig, Join, SwapAlliance, Kick, Reconcile, Leave, Spec.StartMatch,
        Spec.AbortCountdown, Spec.StopMatch, Spec.PauseMatch, Spec.ResumeMatch, Spec.CompleteResume, SetWinner, Spec.FieldEStop,
        Spec.ClearFieldEStop, Spec.StationEStop, Spec.StationAStop, ClearAStop, Spec.ClearEStop, Spec.ClearAllEStops, Disable,
        Spec.Undisable, Spec.ChallengeFinish, Spec.RelayAdvance, DsStatus, NoteControl, Spec.Tick, Spec.Broadcast;
      match op
      case DoDisable(s, self) => StationDisable(world, s, self);
      case DoUndisable(s, byAdmin) => Undisable(world, s, byAdmin);
      case StatusFrom(s, status) => DsReportedStatus(world, s, status);
      case ControlSeen(s, enabled) => NoteDsControl(world, s, enabled);
    }

    /** Whatever is asked of the engine next, the method that does it takes
        the step of the model, and leaves every invariant in place. */
    method Handle(world: Env, op: Op, ghost now: int)
      requires Valid(now) && now <= world.now && Possible(View(), op)
      modifies this
      ensures View() == Next(world, old(View()), op) && Valid(world.now)
    {
      hide Next, EngineSafety.Safe, Settled, EngineClock.Clocked, Possible;
      EngineSafety.NextSafe(world, View(), op);
      OnlyResumesPaused(View());
      NextSettles(world, View(), op, Slot1);
      EngineClock.NextClocked(world, View(), op, now);
      if IsCourse(op) {
        HandleCourse(world, op);
      } else if OfMatch(op) {
        HandleRun(world, op);
      } else if IsStop(op) {
        HandleStop(world, op);
      } else if IsReport(op) {
        HandleReport(world, op);
      } else {
        HandleSetup(world, op);
      }
    }

    /** A restart takes up saved stops inside every invariant. */
    method Restart(world: Env, saved: Option<SavedStops>)
      requires EngineSafety.Fresh(View()) && clock.lastTick <= world.now
      modifies this
      ensures View() == Spec.TrackStops(world, old(View()), saved) && Valid(world.now)
    {
      EngineRuns.RestartBegins(world, View(), saved);
      TrackStops(world, saved);
    }
  }
}
