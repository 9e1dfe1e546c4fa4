/** The match engine on values: the phases of a match, the robots it enables,
    the stops that hold them down, and the clock. */
module EngineState {
  import opened Field

  datatype Phase = Idle | Created | Countdown | Auto | AutoPause | Teleop | Endgame | Paused | PostMatch
  datatype Mode = AutoMode | TeleOpMode
  datatype Disabler = ByDs | BySelf | ByAdmin | ByRelay | ByEStop

  datatype Control = Control(joined: bool, alliance: Option<Alliance>, enabled: bool, eStop: bool, aStop: bool,
                             mode: Mode, disabledBy: Option<Disabler>)

  const FRESH: Control := Control(false, None, false, false, false, TeleOpMode, None)

  type Controls = m: map<Station, Control> | forall s: Station :: s in m witness map s: Station | true :: FRESH

  datatype WinnerMode = ByScores | RedWins | BlueWins | AskReferee
  datatype Timing = Window | Stopwatch | Relay
  datatype Handoff = Manual | Staff | FromDs
  datatype Challenge = Challenge(timing: Timing, handoff: Handoff)

  datatype Config = Config(autoDuration: real, teleopDuration: real, endgameDuration: real, pauseDuration: real,
                           skipAuto: bool, autoWinner: WinnerMode, challenge: Option<Challenge>)

  const OFFICIAL: Config := Config(20.0, 140.0, 30.0, 3.0, false, ByScores, None)
  const CHALLENGE_MIN_DURATION: int := 10
  const CHALLENGE_MAX_DURATION: int := 300
  const COUNTDOWN_SECONDS: real := 3.0
  const POST_MATCH_COUNT_SECONDS: real := 3.0

  /** What the host may ask for: nothing but the two choices of an official
      match, or the window and the style of a challenge. */
  datatype Request = OfficialMatch(skipAuto: bool, autoWinner: WinnerMode) | ChallengeRun(seconds: int, style: Challenge)

  function Clamp(seconds: int): int {
    if seconds < CHALLENGE_MIN_DURATION then CHALLENGE_MIN_DURATION
    else if seconds > CHALLENGE_MAX_DURATION then CHALLENGE_MAX_DURATION
    else seconds
  }

  function ConfigFor(request: Request): Config {
    match request
    case OfficialMatch(skipAuto, autoWinner) => OFFICIAL.(skipAuto := skipAuto, autoWinner := autoWinner)
    case ChallengeRun(seconds, style) => Config(0.0, Clamp(seconds) as real, 0.0, 0.0, true, ByScores, Some(style))
  }

  datatype Tally = Tally(finishedAt: Option<real>, splits: seq<real>)

  const NO_TALLY: Tally := Tally(None, [])

  type Tallies = m: map<Alliance, Tally> | forall a: Alliance :: a in m witness map a: Alliance | true :: NO_TALLY
  type Orders = m: map<Alliance, seq<Station>> | forall a: Alliance :: a in m witness map a: Alliance | true :: []

  /** `ticking` is the interval the engine holds on to; `leaked` counts live
      intervals it has lost hold of. `dropped`, `expiries` and `longest`
      record, for this match, the time lost at phase boundaries, how many
      there were, and the longest tick. */
  datatype Clock = Clock(remaining: real, total: real, lastTick: int, ticking: bool, leaked: nat,
                         dropped: real, expiries: nat, longest: real)

  datatype DsControl = DsControl(at: int, enabled: Option<bool>)

  /** What the field has heard from the Driver Stations and their robots. */
  datatype Heard = Heard(enabledSeen: set<Station>, fmsEnable: map<Station, int>, heartbeat: map<Station, int>,
                         control: map<Station, DsControl>)

  /** E-stops out of a match, and those still waiting for their DS to stop. */
  datatype Stops = Stops(since: map<Station, int>, waits: set<Station>, silenceFrom: int)

  datatype Engine = Engine(phase: Phase, config: Option<Config>, pending: Config, st: Controls, latch: bool,
                           winner: Option<Alliance>, tally: Tallies, order: Orders, runStartedAt: Option<real>,
                           prePause: Option<Phase>, resuming: bool, clock: Clock, heard: Heard, stops: Stops)

  /** The world at one step: the time in milliseconds, the stations whose
      robot field policy forbids, and the stations that hold a team. */
  datatype Env = Env(now: int, forbidden: set<Station>, teamed: set<Station>)

  /** What the program saves of its stops: the field's, and the stations it
      lists, each with whether it was e-stopped. */
  datatype SavedStops = SavedStops(field: bool, stations: map<Station, bool>)

  // ── Views ─────────────────────────────────────────────────────────

  predicate Running(phase: Phase) { phase.Auto? || phase.Teleop? || phase.Endgame? }

  predicate Active(phase: Phase) { !phase.Idle? && !phase.Created? && !phase.PostMatch? }

  predicate EStopped(e: Engine, s: Station) { e.latch || e.st[s].eStop }

  predicate CountUp(config: Option<Config>) {
    config.Some? && config.value.challenge.Some? && !config.value.challenge.value.timing.Window?
  }

  predicate FmsHandoff(config: Option<Config>) {
    config.Some? && config.value.challenge.Some? && config.value.challenge.value.timing.Relay?
    && !config.value.challenge.value.handoff.Manual?
  }

  predicate Finished(e: Engine, alliance: Option<Alliance>) {
    alliance.Some? && e.tally[alliance.value].finishedAt.Some?
  }

  /** The station whose leg it is. */
  function Runner(e: Engine, a: Alliance): Option<Station> {
    if Finished(e, Some(a)) || |e.tally[a].splits| >= |e.order[a]| then None else Some(e.order[a][|e.tally[a].splits|])
  }

  predicate Takes(e: Engine, a: Alliance) { exists s: Station :: e.st[s].joined && e.st[s].alliance == Some(a) }

  predicate AnyJoined(e: Engine) { exists s: Station :: e.st[s].joined }

  predicate CanAStop(e: Engine) {
    e.phase.Created? || e.phase.Countdown? || e.phase.Auto? || (e.phase.Paused? && e.prePause == Some(Auto))
  }

  const DS_ATTACHED_TIMEOUT_MS: int := 5_000
  const FMS_ENABLE_GRACE_MS: int := 2_000
  const DS_CONTROL_QUIET_MS: int := 2_000
  const STOP_SEEN_SLACK_MS: int := 250
  const RESTORED_STOP_QUIET_MS: int := 10_000

  predicate Attached(e: Engine, s: Station, now: int) {
    s in e.heard.heartbeat && now - e.heard.heartbeat[s] < DS_ATTACHED_TIMEOUT_MS
  }

  // ── The wait on a Driver Station, after an e-stop out of a match ──

  function Max(a: int, b: int): int { if a >= b then a else b }

  /** Evidence that the station's DS has stopped its robot since `since`. */
  predicate DsStopped(e: Engine, s: Station, since: int, now: int) {
    var last := if s in e.heard.control then Some(e.heard.control[s]) else None;
    || (last.Some? && last.value.enabled == Some(false) && last.value.at >= since - STOP_SEEN_SLACK_MS)
    || (!(last.Some? && last.value.enabled == Some(true)) && Attached(e, s, now))
    || now - Max(Max(since, if last.Some? then last.value.at else 0), e.stops.silenceFrom) >= DS_CONTROL_QUIET_MS
  }

  predicate OutStopped(e: Engine, s: Station) { !e.st[s].joined && EStopped(e, s) }

  /** Every broadcast brings the waits up to date. */
  function Broadcast(env: Env, e: Engine): Engine {
    var since := map s: Station | OutStopped(e, s) :: if s in e.stops.since then e.stops.since[s] else env.now;
    var waits := set s: Station | OutStopped(e, s)
                   && (s in e.stops.waits || (s !in e.stops.since && s in env.teamed))
                   && !DsStopped(e, s, since[s], env.now);
    e.(stops := e.stops.(since := since, waits := waits))
  }

  // ── Enabling and disabling ────────────────────────────────────────

  function Put(e: Engine, s: Station, c: Control): Engine { e.(st := e.st[s := c]) }

  /** Disabled, for a reason that says who may bring it back. */
  function HeldDown(e: Engine, s: Station, cause: Disabler): Engine {
    Put(e, s, e.st[s].(enabled := false, disabledBy := Some(cause)))
  }

  function DisabledAll(st: Controls): Controls { map s: Station | s in st :: st[s].(enabled := false) }

  predicate MayEnable(env: Env, e: Engine, s: Station) {
    s !in env.forbidden && e.st[s].joined && !EStopped(e, s) && !e.st[s].aStop && e.st[s].disabledBy != Some(ByEStop)
  }

  function MarkFmsEnabled(env: Env, h: Heard, enabled: set<Station>): Heard {
    h.(fmsEnable := h.fmsEnable + (map s | s in enabled :: env.now), enabledSeen := h.enabledSeen - enabled)
  }

  /** One station after an attempt to enable it for the run. */
  function Enabled(env: Env, e: Engine, s: Station, mode: Mode): Control {
    if s in env.forbidden then e.st[s].(enabled := false)
    else if MayEnable(env, e, s) then e.st[s].(enabled := true, mode := mode, disabledBy := None)
    else e.st[s]
  }

  function EnableStation(env: Env, e: Engine, s: Station, mode: Mode): Engine {
    e.(st := e.st[s := Enabled(env, e, s, mode)],
       heard := if MayEnable(env, e, s) then MarkFmsEnabled(env, e.heard, {s}) else e.heard)
  }

  /** A-stops last through the autonomous period. */
  function AStopsReleased(e: Engine, mode: Mode): Engine {
    if mode.TeleOpMode? then e.(st := map s: Station | s in e.st :: e.st[s].(aStop := false)) else e
  }

  /** With FMS hand-offs only the current runner of each alliance goes live. */
  predicate AwaitsLeg(e: Engine, s: Station) {
    FmsHandoff(e.config) && Runner(e, Red) != Some(s) && Runner(e, Blue) != Some(s)
  }

  predicate GoesLive(env: Env, e: Engine, s: Station) {
    e.st[s].joined && !Finished(e, e.st[s].alliance) && !AwaitsLeg(e, s)
  }

  function Participating(env: Env, e: Engine, s: Station, mode: Mode): Control {
    if !e.st[s].joined || Finished(e, e.st[s].alliance) then e.st[s]
    else if AwaitsLeg(e, s) then e.st[s].(enabled := false, disabledBy := Some(ByRelay))
    else Enabled(env, e, s, mode)
  }

  function EnableParticipating(env: Env, e: Engine, mode: Mode): Engine {
    var e' := AStopsReleased(e, mode);
    e'.(st := map s: Station | s in e'.st :: Participating(env, e', s, mode),
        heard := MarkFmsEnabled(env, e'.heard, set s: Station | GoesLive(env, e', s) && MayEnable(env, e', s)))
  }

  // ── The clock ─────────────────────────────────────────────────────

  function StartTick(c: Clock, now: int): Clock {
    c.(lastTick := now, ticking := true, leaked := c.leaked + if c.ticking then 1 else 0)
  }

  function StopTick(c: Clock): Clock { c.(ticking := false) }

  // ── Ending a match ────────────────────────────────────────────────

  /** Ended early: by the host, by the field E-Stop, or with nobody left. */
  function EndNow(e: Engine): Engine {
    e.(phase := PostMatch, st := DisabledAll(e.st), resuming := false,
       clock := StopTick(e.clock).(remaining := 0.0))
  }

  /** The run is over before its time: the counting period begins. */
  function RunOver(e: Engine): Engine {
    e.(phase := PostMatch, st := DisabledAll(e.st), clock := e.clock.(remaining := POST_MATCH_COUNT_SECONDS))
  }

  function EndRunIfEveryoneFinished(env: Env, e: Engine): Engine {
    Broadcast(env, if forall a: Alliance :: Takes(e, a) ==> Finished(e, Some(a)) then RunOver(e) else e)
  }

  // ── Challenge runs ────────────────────────────────────────────────

  predicate CanFinish(e: Engine, a: Alliance) {
    CountUp(e.config) && Running(e.phase) && Takes(e, a) && !Finished(e, Some(a))
  }

  function RunElapsed(e: Engine): real {
    if e.runStartedAt.None? || e.clock.total < e.runStartedAt.value then 0.0 else e.clock.total - e.runStartedAt.value
  }

  function DownFor(c: Control, a: Alliance, cause: Disabler): Control {
    if c.joined && c.alliance == Some(a) then c.(enabled := false, disabledBy := Some(cause)) else c
  }

  function AllianceDown(st: Controls, a: Alliance, cause: Disabler): Controls {
    map s: Station | s in st :: DownFor(st[s], a, cause)
  }

  /** An alliance's clock stops and its robots stay down for the rest of the run. */
  function Home(e: Engine, a: Alliance, elapsed: real, cause: Disabler): Engine {
    e.(tally := e.tally[a := e.tally[a].(finishedAt := Some(elapsed))], st := AllianceDown(e.st, a, cause))
  }

  function RecordFinish(env: Env, e: Engine, a: Alliance, elapsed: real, cause: Disabler): Engine {
    EndRunIfEveryoneFinished(env, Home(e, a, elapsed, cause))
  }

  function ChallengeFinish(env: Env, e: Engine, a: Alliance): Engine {
    if FmsHandoff(e.config) || !CanFinish(e, a) then e else RecordFinish(env, e, a, RunElapsed(e), ByAdmin)
  }

  /** The runner is home and held down, its time recorded. */
  function LegDone(e: Engine, a: Alliance): Engine {
    var e' := e.(tally := e.tally[a := e.tally[a].(splits := e.tally[a].splits + [RunElapsed(e)])]);
    var runner := Runner(e, a);
    if runner.None? then e'
    else HeldDown(e', runner.value, ByRelay)
  }

  function RelayAdvance(env: Env, e: Engine, a: Alliance): Engine {
    if !FmsHandoff(e.config) || !CanFinish(e, a) then e
    else
      var home := LegDone(e, a);
      var next := Runner(home, a);
      if next.None? then RecordFinish(env, home, a, RunElapsed(e), ByRelay)
      else Broadcast(env, EnableStation(env, home, next.value, TeleOpMode))
  }

  /** In a relay handed off by the drivers, the runner's own disable is the hand-off. */
  function HandoffFromDisable(env: Env, e: Engine, s: Station): Engine {
    if FmsHandoff(e.config) && e.config.value.challenge.value.handoff.FromDs? && Running(e.phase)
       && e.st[s].alliance.Some? && Runner(e, e.st[s].alliance.value) == Some(s)
    then RelayAdvance(env, e, e.st[s].alliance.value)
    else e
  }

  // ── Lifecycle ─────────────────────────────────────────────────────

  function CameOut(c: Control, lifted: bool): Control {
    if lifted then c.(enabled := false, disabledBy := Some(ByEStop)) else c
  }

  /** A joined station that comes out of its e-stop in a match starts disabled
      and waits for Enable. */
  function Lifting(before: Engine, after: Engine): Engine {
    after.(st := map s: Station | s in after.st ::
      CameOut(after.st[s], EStopped(before, s) && !EStopped(after, s) && after.st[s].joined && Active(after.phase)))
  }

  function NewControl(c: Control): Control {
    c.(joined := false, alliance := None, enabled := false, eStop := false, aStop := false, disabledBy := None)
  }

  /** The engine once a match is set up. The field latch stays. The e-stops
      this lifts are of stations no longer joined, so it marks none. */
  function SetUp(e: Engine): Engine {
    e.(st := map s: Station | s in e.st :: NewControl(e.st[s]),
       pending := if e.pending.challenge.Some? then e.pending else OFFICIAL,
       config := None, winner := None, tally := map a: Alliance | a in e.tally :: NO_TALLY, phase := Created)
  }

  function CreateMatch(env: Env, e: Engine): Engine {
    if !e.phase.Idle? && !e.phase.PostMatch? then e else Broadcast(env, SetUp(e))
  }

  function Left(c: Control): Control { c.(joined := false, alliance := None, aStop := false) }

  function Unjoined(st: Controls): Controls { map s: Station | s in st :: Left(st[s]) }

  function CancelMatch(env: Env, e: Engine): Engine {
    if !e.phase.Created? then e else Broadcast(env, e.(st := Unjoined(e.st), phase := Idle))
  }

  function ClearedControl(c: Control): Control { Left(c).(eStop := false) }

  function Cleared(e: Engine): Engine {
    e.(config := None, phase := Idle, clock := StopTick(e.clock).(remaining := 0.0), winner := None,
       st := map s: Station | s in e.st :: ClearedControl(e.st[s]))
  }

  function ClearMatch(env: Env, e: Engine): Engine {
    if !e.phase.PostMatch? then e else Broadcast(env, Cleared(e))
  }

  function UpdateConfig(env: Env, e: Engine, request: Request): Engine {
    if !e.phase.Created? then e else Broadcast(env, e.(pending := ConfigFor(request)))
  }

  /** The joined stations of alliance `a` among `slots`, in their order. */
  function JoinedOf(e: Engine, a: Alliance, slots: seq<Station>): seq<Station> {
    if slots == [] then []
    else
      var s := slots[|slots| - 1];
      var before := JoinedOf(e, a, slots[..|slots| - 1]);
      if e.st[s].joined && e.st[s].alliance == Some(a) then before + [s] else before
  }

  predicate Full(e: Engine, a: Alliance) { |JoinedOf(e, a, STATIONS)| >= 3 }

  function Join(env: Env, e: Engine, s: Station, a: Alliance): Engine {
    if !e.phase.Created? || Full(e, a) then e
    else if e.st[s].joined then
      if e.st[s].alliance == Some(a) then e else Broadcast(env, Put(e, s, e.st[s].(alliance := Some(a))))
    else Broadcast(env, Put(e, s, e.st[s].(joined := true, alliance := Some(a))))
  }

  function SwapAlliance(env: Env, e: Engine, s: Station): Engine {
    if !e.phase.Created? || !e.st[s].joined || e.st[s].alliance.None? then e
    else
      var a := Other(e.st[s].alliance.value);
      if Full(e, a) then e else Broadcast(env, Put(e, s, e.st[s].(alliance := Some(a))))
  }

  function Kick(env: Env, e: Engine, s: Station): Engine {
    if !e.phase.Created? || !e.st[s].joined then e else Broadcast(env, Put(e, s, Left(e.st[s])))
  }

  function Dropped(c: Control, changed: bool): Control { if changed && c.joined then Left(c) else c }

  /** Robots of these stations changed underneath them during setup. */
  function Reconcile(env: Env, e: Engine, changed: set<Station>): Engine {
    if !e.phase.Created? || (forall s: Station :: s in changed ==> !e.st[s].joined) then e
    else Broadcast(env, e.(st := map s: Station | s in e.st ::
                             Dropped(e.st[s], s in changed)))
  }

  /** Gone from the match, and disabled at once if it was running. */
  function Departed(e: Engine, s: Station): Engine {
    Put(e, s, Left(if Active(e.phase) then e.st[s].(enabled := false) else e.st[s]))
  }

  function Leave(env: Env, e: Engine, s: Station): Engine {
    if !e.st[s].joined then e
    else
      var e' := Departed(e, s);
      if Active(e.phase) && !AnyJoined(e') then Broadcast(env, EndNow(e'))
      else if Running(e.phase) && CountUp(e.config) then EndRunIfEveryoneFinished(env, e')
      else Broadcast(env, e')
  }

  predicate WinnerKnown(c: Config, winner: Option<Alliance>) {
    !c.skipAuto || c.challenge.Some? || c.autoWinner.RedWins? || c.autoWinner.BlueWins? || winner.Some?
  }

  function StartWinner(c: Config, winner: Option<Alliance>): Option<Alliance> {
    if c.autoWinner.RedWins? || c.autoWinner.BlueWins? then
      if !c.skipAuto then None
      else if c.challenge.Some? then winner
      else Some(if c.autoWinner.RedWins? then Red else Blue)
    else winner
  }

  /** An e-stop stays latched into the match, and so does a pre-armed a-stop
      of a robot that takes part. */
  function Lined(e: Engine, c: Control): Control {
    c.(enabled := false,
       disabledBy := if c.eStop then c.disabledBy else None,
       aStop := c.aStop && c.joined,
       mode := if c.joined && !e.pending.skipAuto && e.pending.autoDuration > 0.0 then AutoMode else TeleOpMode)
  }

  /** The countdown of a new match. The running order is frozen here. */
  function Started(env: Env, e: Engine): Engine {
    e.(config := Some(e.pending), tally := map a: Alliance | a in e.tally :: NO_TALLY, runStartedAt := None,
       winner := StartWinner(e.pending, e.winner),
       order := map a: Alliance | a in e.order :: JoinedOf(e, a, STATIONS),
       phase := Countdown,
       st := map s: Station | s in e.st :: Lined(e, e.st[s]),
       clock := StartTick(e.clock, env.now).(remaining := COUNTDOWN_SECONDS, total := 0.0,
                                             dropped := 0.0, expiries := 0, longest := 0.0))
  }

  predicate Starts(e: Engine, gates: bool) {
    e.phase.Created? && gates && !e.latch && AnyJoined(e) && WinnerKnown(e.pending, e.winner)
  }

  /** `gates` is whether every other gate is open: the ready check, the staff
      roles, the restart cooldown and the announcement hold. */
  function StartMatch(env: Env, e: Engine, gates: bool): Engine {
    if Starts(e, gates) then Broadcast(env, Started(env, e)) else e
  }

  function BackToSetup(c: Control): Control {
    if c.joined then c.(enabled := false, mode := TeleOpMode) else c
  }

  function Aborted(e: Engine): Engine {
    e.(phase := Created, clock := StopTick(e.clock).(remaining := 0.0), st := map s: Station | s in e.st :: BackToSetup(e.st[s]))
  }

  function AbortCountdown(env: Env, e: Engine): Engine {
    if e.phase.Countdown? then Broadcast(env, Aborted(e)) else e
  }

  function StopMatch(env: Env, e: Engine): Engine {
    if !Active(e.phase) then e else Broadcast(env, EndNow(e))
  }

  function OnHold(e: Engine): Engine {
    e.(prePause := Some(e.phase), phase := Paused, clock := StopTick(e.clock), st := DisabledAll(e.st))
  }

  function PauseMatch(env: Env, e: Engine): Engine {
    if e.phase.Paused? && e.resuming then Broadcast(env, e.(resuming := false))
    else if !Running(e.phase) then e
    else Broadcast(env, OnHold(e))
  }

  function ResumeMatch(env: Env, e: Engine): Engine {
    if !e.phase.Paused? || e.resuming then e else Broadcast(env, e.(resuming := true))
  }

  /** The 3-2-1 is over. */
  function CompleteResume(env: Env, e: Engine): Engine {
    if !e.phase.Paused? then e.(resuming := false)
    else
      var phase := if e.prePause.Some? then e.prePause.value else Teleop;
      var live := EnableParticipating(env, e.(resuming := false, phase := phase, prePause := None),
                                      if phase.Auto? then AutoMode else TeleOpMode);
      Broadcast(env, live.(clock := StartTick(live.clock, env.now)))
  }

  function SetWinner(env: Env, e: Engine, a: Alliance): Engine {
    var e' := e.(winner := Some(a));
    Broadcast(env, if e.phase.AutoPause? && e.config.Some? && e.config.value.autoWinner.AskReferee?
                   then e'.(clock := StartTick(e.clock, env.now)) else e')
  }

  // ── Stops ─────────────────────────────────────────────────────────

  function FieldEStop(env: Env, e: Engine): Engine {
    var e' := e.(latch := true, resuming := false, st := DisabledAll(e.st));
    Broadcast(env, if Active(e.phase) then EndNow(e'.(prePause := None)) else e')
  }

  function ClearFieldEStop(env: Env, e: Engine): Engine {
    if !e.latch || (exists s: Station :: s in e.stops.waits && !e.st[s].eStop) then e
    else Broadcast(env, Lifting(e, e.(latch := false)))
  }

  function TakenUp(c: Control, saved: SavedStops, s: Station): Control {
    c.(eStop := c.eStop || (s in saved.stations && saved.stations[s]))
  }

  /** A restart takes up the stops of the run before it, as fresh presses: and
      the silence of a DS says nothing for some time. */
  function Restored(e: Engine, saved: SavedStops, now: int): Engine {
    e.(latch := saved.field,
       st := map s: Station | s in e.st :: TakenUp(e.st[s], saved, s),
       stops := if saved.field || saved.stations != map[]
                then e.stops.(silenceFrom := now + RESTORED_STOP_QUIET_MS - DS_CONTROL_QUIET_MS) else e.stops)
  }

  function TrackStops(env: Env, e: Engine, saved: Option<SavedStops>): Engine {
    Broadcast(env, if saved.Some? then Restored(e, saved.value, env.now) else e)
  }

  function StationEStop(env: Env, e: Engine, s: Station): Engine {
    Broadcast(env, Put(e, s, e.st[s].(eStop := true, enabled := false)))
  }

  function StationAStop(env: Env, e: Engine, s: Station): Engine {
    if !CanAStop(e) || !e.st[s].joined || e.st[s].aStop then e
    else Broadcast(env, Put(e, s, e.st[s].(aStop := true, enabled := false)))
  }

  function ClearAStop(env: Env, e: Engine, s: Station): Engine {
    if !e.phase.Created? || !e.st[s].aStop then e else Broadcast(env, Put(e, s, e.st[s].(aStop := false)))
  }

  function ClearEStop(env: Env, e: Engine, s: Station): Engine {
    if !e.latch && s in e.stops.waits then e
    else Broadcast(env, Lifting(e, Put(e, s, e.st[s].(eStop := false))))
  }

  function ClearAllEStops(env: Env, e: Engine): Engine {
    if exists s: Station :: s in e.stops.waits then e
    else Broadcast(env, Lifting(e, e.(latch := false, st := map s: Station | s in e.st :: e.st[s].(eStop := false))))
  }

  function Disable(env: Env, e: Engine, s: Station, self: bool): Engine {
    var e' := Broadcast(env, HeldDown(e, s, if self then BySelf else ByAdmin));
    if e.st[s].enabled && self then HandoffFromDisable(env, e', s) else e'
  }

  /** When a press of Enable, or a returning DS, gets a stopped robot back. */
  predicate Undisables(env: Env, e: Engine, s: Station, byAdmin: bool) {
    && s !in env.forbidden && Running(e.phase) && e.st[s].joined && !EStopped(e, s) && !e.st[s].aStop
    && (e.st[s].disabledBy == Some(ByAdmin) ==> byAdmin)
    && !Finished(e, e.st[s].alliance)
    && (FmsHandoff(e.config) && e.st[s].alliance.Some? ==> Runner(e, e.st[s].alliance.value) == Some(s))
    && !e.st[s].enabled
  }

  /** Enabled again, in the mode of the period the match is in. */
  function Revived(env: Env, e: Engine, s: Station): Engine {
    Put(e, s, e.st[s].(mode := if e.phase.Auto? then AutoMode else TeleOpMode, enabled := true, disabledBy := None))
    .(heard := MarkFmsEnabled(env, e.heard, {s}))
  }

  function Undisable(env: Env, e: Engine, s: Station, byAdmin: bool): Engine {
    if Undisables(env, e, s, byAdmin) then Broadcast(env, Revived(env, e, s)) else e
  }

  // ── What the Driver Stations report ───────────────────────────────

  /** One status packet. `legacy` is whether the DS is of the older
      generation, `comms` is false when it reports no link to its robot. */
  datatype Status = Status(enabled: bool, eStop: bool, aStop: bool, legacy: bool, comms: bool)

  /** A status packet marks the DS attached; one that had been away brings a
      robot disabled by it straight back. */
  function NoteHeartbeat(env: Env, e: Engine, s: Station, enabled: bool): Engine {
    var h := if enabled then e.heard.(enabledSeen := e.heard.enabledSeen + {s}) else e.heard;
    var e' := e.(heard := h.(heartbeat := h.heartbeat[s := env.now]));
    if Attached(e, s, env.now) then e'
    else Broadcast(env, if e.st[s].disabledBy == Some(ByDs) && Running(e.phase) then Undisable(env, e', s, false) else e')
  }

  /** A report of "disabled" counts as the driver's own Disable. */
  predicate DriverDisabled(env: Env, e: Engine, s: Station, status: Status) {
    && !status.enabled && e.st[s].enabled && status.comms
    && (status.legacy || s in e.heard.enabledSeen)
    && (s in e.heard.fmsEnable ==> env.now - e.heard.fmsEnable[s] > FMS_ENABLE_GRACE_MS)
  }

  predicate ReportsEStop(e: Engine, s: Station, status: Status) { status.eStop && !e.st[s].eStop }

  predicate ReportsAStop(e: Engine, s: Station, status: Status) {
    status.aStop && !e.st[s].aStop && e.st[s].joined && CanAStop(e)
  }

  function HonourStatus(env: Env, e: Engine, s: Station, status: Status): Engine {
    if ReportsEStop(e, s, status) then Broadcast(env, Put(e, s, e.st[s].(eStop := true, enabled := false)))
    else if ReportsAStop(e, s, status) then Broadcast(env, Put(e, s, e.st[s].(aStop := true, enabled := false)))
    else if DriverDisabled(env, e, s, status) then HandoffFromDisable(env, Broadcast(env, HeldDown(e, s, ByDs)), s)
    else e
  }

  function DsStatus(env: Env, e: Engine, s: Station, status: Status): Engine {
    HonourStatus(env, NoteHeartbeat(env, e, s, status.enabled), s, status)
  }

  /** The capture saw this station's DS send its robot a control packet. */
  function NoteControl(env: Env, e: Engine, s: Station, enabled: Option<bool>): Engine {
    var e' := e.(heard := e.heard.(control := e.heard.control[s := DsControl(env.now, enabled)]));
    if enabled == Some(true) && s in e.stops.since && s !in e.stops.waits then
      Broadcast(env, e'.(stops := e'.stops.(waits := e'.stops.waits + {s})))
    else if enabled == Some(false) && s in e.stops.waits then Broadcast(env, e')
    else e'
  }

  // ── The tick ──────────────────────────────────────────────────────

  /** `pick` stands for the scores, or the coin when they are level. */
  function AutoWinner(c: Config, winner: Option<Alliance>, pick: Alliance): Option<Alliance> {
    match c.autoWinner
    case RedWins => Some(Red)
    case BlueWins => Some(Blue)
    case AskReferee => winner
    case ByScores => Some(pick)
  }

  function Elapsed(e: Engine, now: int): real { (now - e.clock.lastTick) as real / 1000.0 }

  function Expired(c: Clock, duration: real): Clock {
    c.(remaining := duration, dropped := c.dropped - c.remaining, expiries := c.expiries + 1)
  }

  function EnterTeleop(env: Env, e: Engine): Engine
    requires e.config.Some?
  {
    EnableParticipating(env, e.(phase := Teleop, clock := Expired(e.clock, e.config.value.teleopDuration)), TeleOpMode)
  }

  function PhaseExpired(env: Env, e: Engine, pick: Alliance): Engine
    requires e.config.Some?
  {
    var c := e.config.value;
    match e.phase
    case Countdown =>
      if c.skipAuto || c.autoDuration <= 0.0 then EnterTeleop(env, e.(runStartedAt := Some(e.clock.total)))
      else EnableParticipating(env, e.(runStartedAt := Some(e.clock.total), phase := Auto,
                                       clock := Expired(e.clock, c.autoDuration)), AutoMode)
    case Auto =>
      if c.pauseDuration > 0.0 || c.autoWinner.AskReferee? then
        var held := e.(phase := AutoPause, st := DisabledAll(e.st), clock := Expired(e.clock, c.pauseDuration));
        if c.autoWinner.AskReferee? && e.winner.None? then held.(clock := StopTick(held.clock)) else held
      else EnterTeleop(env, e.(winner := AutoWinner(c, e.winner, pick)))
    case AutoPause => EnterTeleop(env, e.(winner := AutoWinner(c, e.winner, pick)))
    case Teleop => EndByTimer(e)
    case Endgame => EndByTimer(e)
    case _ => e
  }

  /** The buzzer. The tick keeps running for the counting period. */
  function EndByTimer(e: Engine): Engine {
    e.(phase := PostMatch, st := DisabledAll(e.st), clock := Expired(e.clock, POST_MATCH_COUNT_SECONDS))
  }

  function LetGo(c: Control): Control { c.(joined := false, alliance := None) }

  /** The counting period is over, and the stations are let go. */
  function Released(e: Engine): Engine {
    e.(clock := StopTick(e.clock).(remaining := 0.0), st := map s: Station | s in e.st :: LetGo(e.st[s]))
  }

  function Transition(env: Env, e: Engine, pick: Alliance): Engine {
    if e.config.None? then e
    else if e.phase.PostMatch? then
      if e.clock.remaining > 0.0 then e else Broadcast(env, Released(e))
    else if e.clock.remaining > 0.0 then
      if e.phase.Teleop? && e.clock.remaining <= e.config.value.endgameDuration then e.(phase := Endgame) else e
    else PhaseExpired(env, e, pick)
  }

  function Advanced(e: Engine, now: int): Engine {
    var d := Elapsed(e, now);
    e.(clock := e.clock.(lastTick := now, remaining := e.clock.remaining - d, total := e.clock.total + d,
                         longest := if d > e.clock.longest then d else e.clock.longest))
  }

  function Tick(env: Env, e: Engine, pick: Alliance): Engine {
    Broadcast(env, Transition(env, Advanced(e, env.now), pick))
  }

  // ── Runs ──────────────────────────────────────────────────────────

  datatype Op =
    | DoCreate | DoCancel | DoClear | DoConfig(request: Request)
    | DoJoin(s: Station, a: Alliance) | DoSwap(s: Station) | DoKick(s: Station) | DoReconcile(changed: set<Station>) | DoLeave(s: Station)
    | DoStart(gates: bool) | DoAbort | DoStop | DoPause | DoResume | ResumeTimer | DoWinner(a: Alliance)
    | DoFieldEStop | DoClearField | DoEStop(s: Station) | DoAStop(s: Station) | DoClearAStop(s: Station)
    | DoClearEStop(s: Station) | DoClearAll | DoDisable(s: Station, self: bool) | DoUndisable(s: Station, byAdmin: bool)
    | DoFinish(a: Alliance) | DoRelay(a: Alliance)
    | StatusFrom(s: Station, status: Status) | ControlSeen(s: Station, enabled: Option<bool>)
    | TickTimer(pick: Alliance) | OtherBroadcast

  /** A tick needs a live interval, a resume its timer. */
  predicate Possible(e: Engine, op: Op) {
    match op
    case TickTimer(_) => e.clock.ticking || e.clock.leaked > 0
    case ResumeTimer => e.resuming
    case _ => true
  }

  function Next(env: Env, e: Engine, op: Op): Engine {
    match op
    case DoCreate => CreateMatch(env, e)
    case DoCancel => CancelMatch(env, e)
    case DoClear => ClearMatch(env, e)
    case DoConfig(request) => UpdateConfig(env, e, request)
    case DoJoin(s, a) => Join(env, e, s, a)
    case DoSwap(s) => SwapAlliance(env, e, s)
    case DoKick(s) => Kick(env, e, s)
    case DoReconcile(changed) => Reconcile(env, e, changed)
    case DoLeave(s) => Leave(env, e, s)
    case DoStart(gates) => StartMatch(env, e, gates)
    case DoAbort => AbortCountdown(env, e)
    case DoStop => StopMatch(env, e)
    case DoPause => PauseMatch(env, e)
    case DoResume => ResumeMatch(env, e)
    case ResumeTimer => CompleteResume(env, e)
    case DoWinner(a) => SetWinner(env, e, a)
    case DoFieldEStop => FieldEStop(env, e)
    case DoClearField => ClearFieldEStop(env, e)
    case DoEStop(s) => StationEStop(env, e, s)
    case DoAStop(s) => StationAStop(env, e, s)
    case DoClearAStop(s) => ClearAStop(env, e, s)
    case DoClearEStop(s) => ClearEStop(env, e, s)
    case DoClearAll => ClearAllEStops(env, e)
    case DoDisable(s, self) => Disable(env, e, s, self)
    case DoUndisable(s, byAdmin) => Undisable(env, e, s, byAdmin)
    case DoFinish(a) => ChallengeFinish(env, e, a)
    case DoRelay(a) => RelayAdvance(env, e, a)
    case StatusFrom(s, status) => DsStatus(env, e, s, status)
    case ControlSeen(s, enabled) => NoteControl(env, e, s, enabled)
    case TickTimer(pick) => Tick(env, e, pick)
    case OtherBroadcast => Broadcast(env, e)
  }

  /** One step of a run: the world as it was, and what happened. */
  datatype Step = Step(env: Env, op: Op)

  function Run(e: Engine, steps: seq<Step>): Engine {
    if steps == [] then e
    else
      var last := steps[|steps| - 1];
      Next(last.env, Run(e, steps[..|steps| - 1]), last.op)
  }

  ghost predicate Runs(e: Engine, steps: seq<Step>) {
    steps != [] ==>
      var before := steps[..|steps| - 1];
      Runs(e, before) && Possible(Run(e, before), steps[|steps| - 1].op)
  }
}
