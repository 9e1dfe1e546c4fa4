/** The drive sessions as the program keeps them: maps updated in place, each
    method tied to the step it takes on values. */
module DriveSessions {
  import opened Field
  import opened DriveState
  import opened DriveOwnership
  import opened DriveRuns
  import S = DriveState

  // ── How steps compose ─────────────────────────────────────────────

  lemma {:induction false} TouchEachIgnoresOwn(s: State, o: Own, owns: seq<Own>)
    ensures owns != [] ==> TouchEach(s.(own := o), owns) == TouchEach(s, owns)
    ensures TouchEach(s, owns).env == s.env
  {
    if owns != [] {
      TouchEachIgnoresOwn(s, o, owns[..|owns| - 1]);
      assert owns[..|owns| - 1] == [] ==> TouchEach(s, owns[..|owns| - 1]) == s;
    }
  }

  lemma {:induction false} TouchEachMore(s: State, a: seq<Own>, b: seq<Own>)
    ensures TouchEach(TouchEach(s, a), b) == TouchEach(s, a + b)
  {
    if b == [] {
      assert a + b == a;
    } else {
      TouchEachMore(s, a, b[..|b| - 1]);
      assert (a + b)[..|a + b| - 1] == a + b[..|b| - 1];
    }
  }

  lemma ApplyIgnoresOwn(s: State, o: Own, out: Out)
    ensures Apply(s.(own := o), out) == Apply(s, out) && Apply(s, out).env == s.env && Apply(s, out).own == out.own
  {
    TouchEachIgnoresOwn(s, o, out.touched);
  }

  /** Two inputs, or two parts of one, in a row. */
  lemma ApplyThen(s: State, first: Out, second: Out)
    ensures Apply(Apply(s, first), second) == Apply(s, Then(first, second))
  {
    var s1 := TouchEach(s, first.touched);
    ApplyIgnoresOwn(s1, first.own, second);
    TouchEachMore(s, first.touched, second.touched);
  }

  lemma ApplyNothing(s: State)
    ensures Apply(s, Quiet(s.own)) == s
  {
  }

  lemma ApplyLoud(s: State, o: Own)
    ensures Apply(s, Loud(o)) == Touch(s, o)
  {
    assert TouchEach(s, []) == s;
    assert [o][..0] == [];
  }

  lemma SweepCases(s: State)
    ensures ApplySweep(s) == if AnyStale(s.env, s.own) then Apply(s, Loud(S.Sweep(s.env, s.own).own))
                             else s.(own := S.Sweep(s.env, s.own).own,
                                     rec := RequestSync(s.rec, Demand(s.env.config, S.Sweep(s.env, s.own).own)))
    ensures Apply(s, S.Sweep(s.env, s.own)).shown == ApplySweep(s).shown
  {
  }

  lemma ShownAfter(s: State, out: Out)
    requires s.shown == StationView(s.env.config, s.own.sessions) && Told(s.own, out)
    ensures Apply(s, out).shown == StationView(s.env.config, out.own.sessions)
  {
    if out.touched != [] {
      TouchEachIgnoresOwn(s, s.own, out.touched[..|out.touched| - 1]);
    }
  }

  lemma NoOtherStation(config: Config, robot: Robot)
    requires ConfigOk(config)
    ensures forall st :: st in config && config[st] == robot <==> StationOf(config, robot) == Some(st)
  {
  }

  // ── The world the drive sessions act on ───────────────────────────

  /** The radio's config, the clock, the match engine's record of who is the
      Driver Station of each slot, the kernel tables and the routes. */
  class Effects {
    var config: Config
    var now: int
    var engine: map<Station, Ip>
    var dnat: multiset<DnatRule>
    var blocks: multiset<BlockRule>
    var routes: map<Ip, Station>

    constructor (config: Config, now: int, dnat: multiset<DnatRule>, blocks: multiset<BlockRule>, routes: map<Ip, Station>)
      ensures this.config == config && this.now == now && engine == map[]
      ensures this.dnat == dnat && this.blocks == blocks && this.routes == routes
    {
      this.config, this.now, engine, this.dnat, this.blocks, this.routes := config, now, map[], dnat, blocks, routes;
    }

    method EngineSetDs(station: Station, dsIp: Ip)
      modifies this`engine
      ensures engine == old(engine)[station := dsIp]
    {
      engine := engine[station := dsIp];
    }

    method EngineClearDs(station: Station)
      modifies this`engine
      ensures engine == old(engine) - {station}
    {
      engine := engine - {station};
    }
  }

  class DriveSessions {
    const fx: Effects
    var laptops: map<Ip, Laptop>
    var sessions: map<Robot, Ip>
    var blocked: map<Robot, set<Ip>>
    var installedDnat: map<DnatRule, nat>
    var installedBlocks: set<BlockRule>
    var routed: set<Ip>
    var engineShown: map<Station, Ip>
    /** The sync pass under way, suspended at an await. */
    var pass: Option<Pass>
    var syncAgain: bool
    ghost var served: Want
    ghost var servedOk: bool
    ghost var disturbed: set<Ip>

    ghost function Ownership(): Own reads this { Own(laptops, sessions, blocked) }

    ghost function Surroundings(): Env reads this, fx { Env(fx.config, fx.now) }

    ghost function Records(): Rec reads this, fx {
      Rec(installedDnat, installedBlocks, routed, fx.dnat, fx.blocks, fx.routes, pass, syncAgain, served, servedOk, disturbed)
    }

    ghost function View(): State reads this, fx {
      State(Surroundings(), Ownership(), engineShown, Records())
    }

    /** Holds between any two statements that change who drives what. */
    ghost predicate Sound() reads this, fx {
      ConfigOk(fx.config) && Owned(Ownership()) && fx.engine == engineShown
    }

    ghost predicate Valid() reads this, fx {
      Sound() && AllOnField(fx.config, Ownership()) && engineShown == StationView(fx.config, sessions)
    }

    constructor (fx: Effects)
      requires ConfigOk(fx.config) && fx.engine == map[]
      ensures Valid() && this.fx == fx
      ensures View() == State(Env(fx.config, fx.now), NOBODY, map[],
                              Rec(map[], {}, {}, fx.dnat, fx.blocks, fx.routes, None, false, Want({}, {}), true, {}))
    {
      this.fx := fx;
      laptops, sessions, blocked := map[], map[], map[];
      installedDnat, installedBlocks, routed, engineShown := map[], {}, {}, map[];
      pass, syncAgain, served, servedOk, disturbed := None, false, Want({}, {}), true, {};
    }

    // ── Lookups ─────────────────────────────────────────────────────

    method FindStation(robot: Robot) returns (st: Option<Station>)
      ensures st == StationOf(fx.config, robot)
    {
      for k := 0 to |STATIONS|
        invariant StationFrom(fx.config, robot, k) == StationOf(fx.config, robot)
      {
        if STATIONS[k] in fx.config && fx.config[STATIONS[k]] == robot {
          return Some(STATIONS[k]);
        }
      }
      return None;
    }

    method FindRobots(team: Team) returns (robots: seq<Robot>)
      ensures robots == RobotsOfTeam(fx.config, team, STATIONS)
    {
      robots := [];
      for k := 0 to |STATIONS|
        invariant robots == RobotsOfTeam(fx.config, team, STATIONS[..k])
      {
        assert STATIONS[..k + 1][..k] == STATIONS[..k];
        var st := STATIONS[k];
        if st in fx.config && TeamOf(fx.config[st]) == Some(team) {
          robots := robots + [fx.config[st]];
        }
      }
      assert STATIONS[..|STATIONS|] == STATIONS;
    }

    method RobotDrivenBy(dsIp: Ip) returns (r: Option<Robot>)
      requires OneEach(sessions)
      ensures r == DrivenBy(Ownership(), dsIp)
    {
      var left := sessions.Keys;
      while left != {}
        invariant left <= sessions.Keys
        invariant forall robot :: robot in sessions && robot !in left ==> sessions[robot] != dsIp
        decreases left
      {
        var robot :| robot in left;
        if sessions[robot] == dsIp {
          assert Drives(Ownership(), dsIp);
          return Some(robot);
        }
        left := left - {robot};
      }
      assert !Drives(Ownership(), dsIp);
      return None;
    }

    method IsHeldOff(dsIp: Ip) returns (held: bool)
      ensures held <==> IsBlocked(Ownership(), dsIp)
    {
      var left := blocked.Keys;
      while left != {}
        invariant left <= blocked.Keys
        invariant forall robot :: robot in blocked && robot !in left ==> dsIp !in blocked[robot]
        decreases left
      {
        var robot :| robot in left;
        if dsIp in blocked[robot] { return true; }
        left := left - {robot};
      }
      return false;
    }

    // ── Views ───────────────────────────────────────────────────────

    /** The laptop driving whatever robot is on `station`. */
    method LaptopOn(station: Station) returns (dsIp: Option<Ip>)
      ensures dsIp.Some? <==> station in StationView(fx.config, sessions)
      ensures dsIp.Some? ==> dsIp.value == StationView(fx.config, sessions)[station]
    {
      if station in fx.config && fx.config[station] in sessions { return Some(sessions[fx.config[station]]); }
      return None;
    }

    method IsDuplicate(station: Station, dsIp: Ip) returns (duplicate: bool)
      ensures duplicate <==> IsDuplicateOn(Surroundings(), Ownership(), station, dsIp)
    {
      var holder := LaptopOn(station);
      duplicate := holder.Some? && holder.value != dsIp
        && holder.value in laptops && fx.now - laptops[holder.value].lastActivity <= DS_STALE_TIMEOUT_MS;
    }

    /** The slot of the robot this laptop drives, if it is of `team`. */
    method StationDrivenBy(dsIp: Ip, team: Team) returns (station: Option<Station>)
      requires Valid()
      ensures station.Some? <==> exists r :: r in sessions && sessions[r] == dsIp && TeamOf(r) == Some(team)
      ensures station.Some? ==> station.value in StationView(fx.config, sessions)
                                && StationView(fx.config, sessions)[station.value] == dsIp
    {
      var robot := RobotDrivenBy(dsIp);
      if robot.None? || TeamOf(robot.value) != Some(team) {
        assert robot.None? ==> !Drives(Ownership(), dsIp);
        return None;
      }
      station := FindStation(robot.value);
      OnFieldHasStation(fx.config, robot.value);
    }

    // ── Telling the engine, asking for a sync ───────────────────────

    method ComputeView() returns (want: map<Station, Ip>)
      requires ConfigOk(fx.config)
      ensures want == StationView(fx.config, sessions)
    {
      want := map[];
      var left := sessions.Keys;
      while left != {}
        invariant left <= sessions.Keys
        invariant forall st :: st in want <==> st in fx.config && fx.config[st] in sessions && fx.config[st] !in left
        invariant forall st :: st in want ==> want[st] == sessions[fx.config[st]]
        decreases left
      {
        var robot :| robot in left;
        var station := FindStation(robot);
        NoOtherStation(fx.config, robot);
        if station.Some? {
          want := want[station.value := sessions[robot]];
        }
        left := left - {robot};
      }
    }

    /** Slots nobody drives any more are taken back from the engine. */
    method ClearOthers(want: map<Station, Ip>)
      requires fx.engine == engineShown
      modifies this`engineShown, fx`engine
      ensures fx.engine == engineShown && engineShown.Keys <= want.Keys
    {
      var shown := engineShown.Keys;
      while shown != {}
        invariant fx.engine == engineShown
        invariant forall st :: st in engineShown && st !in shown ==> st in want
        decreases shown
      {
        var station :| station in shown;
        shown := shown - {station};
        if station !in want {
          engineShown := engineShown - {station};
          fx.EngineClearDs(station);
        }
      }
    }

    method ShowAll(want: map<Station, Ip>)
      requires fx.engine == engineShown && engineShown.Keys <= want.Keys
      modifies this`engineShown, fx`engine
      ensures fx.engine == engineShown && engineShown == want
    {
      var stations := want.Keys;
      while stations != {}
        invariant stations <= want.Keys && fx.engine == engineShown && engineShown.Keys <= want.Keys
        invariant forall st :: st in want && st !in stations ==> st in engineShown && engineShown[st] == want[st]
        decreases stations
      {
        var station :| station in stations;
        stations := stations - {station};
        if !(station in engineShown && engineShown[station] == want[station]) {
          engineShown := engineShown[station := want[station]];
          fx.EngineSetDs(station, want[station]);
        }
      }
    }

    method SyncEngine()
      requires ConfigOk(fx.config) && fx.engine == engineShown
      modifies this`engineShown, fx`engine
      ensures engineShown == StationView(fx.config, sessions) && fx.engine == engineShown
    {
      var want := ComputeView();
      ClearOthers(want);
      ShowAll(want);
    }

    method ComputeDnat() returns (dnat: set<DnatRule>)
      requires ConfigOk(fx.config)
      ensures dnat == Demand(fx.config, Ownership()).dnat
    {
      dnat := {};
      var left := sessions.Keys;
      while left != {}
        invariant left <= sessions.Keys
        invariant forall rule :: rule in dnat <==> rule in Demand(fx.config, Ownership()).dnat && fx.config[rule.station] !in left
        decreases left
      {
        var robot :| robot in left;
        var station := FindStation(robot);
        var team := TeamOf(robot);
        NoOtherStation(fx.config, robot);
        if station.Some? && team.Some? {
          dnat := dnat + {DnatRule(station.value, team.value, sessions[robot])};
        }
        left := left - {robot};
      }
    }

    method ComputeBlocks() returns (blocks: set<BlockRule>)
      requires ConfigOk(fx.config)
      ensures blocks == Demand(fx.config, Ownership()).blocks
    {
      blocks := {};
      var left := blocked.Keys;
      while left != {}
        invariant left <= blocked.Keys
        invariant forall b :: b in blocks <==> b in Demand(fx.config, Ownership()).blocks && fx.config[b.station] !in left
        decreases left
      {
        var robot :| robot in left;
        var station := FindStation(robot);
        NoOtherStation(fx.config, robot);
        if station.Some? {
          blocks := blocks + set ip | ip in blocked[robot] :: BlockRule(station.value, ip);
        }
        left := left - {robot};
      }
    }

    /** The rules a pass decides on when it begins. */
    method ComputeWant() returns (want: Want)
      requires ConfigOk(fx.config)
      ensures want == Demand(fx.config, Ownership())
    {
      var dnat := ComputeDnat();
      var blocks := ComputeBlocks();
      want := Want(dnat, blocks);
    }

    /** Serialised: a call while a pass is under way makes it run once more. */
    method Sync()
      requires ConfigOk(fx.config)
      modifies this`pass, this`syncAgain, this`disturbed
      ensures View() == old(View()).(rec := RequestSync(old(Records()), Demand(fx.config, Ownership())))
    {
      if pass.Some? {
        syncAgain := true;
      } else {
        Begin();
      }
    }

    method Begin()
      requires ConfigOk(fx.config)
      modifies this`pass, this`syncAgain, this`disturbed
      ensures Records() == BeginPass(old(Records()), Demand(fx.config, Ownership()))
    {
      syncAgain := false;
      var want := ComputeWant();
      pass := Some(Pass(want, DroppingDnat, set rule | rule in installedDnat :: DropDnat(rule, installedDnat[rule]), true));
      disturbed := {};
    }

    method Touch()
      requires ConfigOk(fx.config) && fx.engine == engineShown
      modifies this`engineShown, this`pass, this`syncAgain, this`disturbed, fx`engine
      ensures View() == S.Touch(old(View()), old(Ownership())) && fx.engine == engineShown
    {
      SyncEngine();
      Sync();
    }

    // ── Internals ───────────────────────────────────────────────────

    method PruneEmptyBlocks()
      modifies this`blocked
      ensures blocked == Prune(old(blocked))
    {
      ghost var all := blocked;
      var left := blocked.Keys;
      while left != {}
        invariant left <= all.Keys
        invariant blocked == map r | r in all && (r in left || all[r] != {}) :: all[r]
        decreases left
      {
        var robot :| robot in left;
        left := left - {robot};
        if blocked[robot] == {} { blocked := blocked - {robot}; }
      }
    }

    /** Takes `dsIp` off the blocks of the robots in `which`. */
    method StrikeFrom(dsIp: Ip, which: set<Robot>) returns (changed: bool)
      modifies this`blocked
      ensures blocked == Lifted(old(blocked), dsIp, which)
      ensures changed <==> exists r :: r in old(blocked) && r in which && dsIp in old(blocked)[r]
    {
      ghost var all := blocked;
      changed := false;
      var left := blocked.Keys;
      while left != {}
        invariant left <= all.Keys
        invariant blocked == map r | r in all :: if r in which && r !in left then all[r] - {dsIp} else all[r]
        invariant changed <==> exists r :: r in all && r in which && r !in left && dsIp in all[r]
        decreases left
      {
        var robot :| robot in left;
        if robot in which {
          changed := dsIp in blocked[robot] || changed;
          blocked := blocked[robot := blocked[robot] - {dsIp}];
        }
        left := left - {robot};
      }
    }

    /** Tells the engine and asks for a sync after a change from `s`. */
    method TouchAfter(ghost s: State)
      requires ConfigOk(fx.config) && fx.engine == engineShown && View() == s.(own := Ownership())
      modifies this`engineShown, this`pass, this`syncAgain, this`disturbed, fx`engine
      ensures View() == Apply(s, Loud(old(Ownership()))) && fx.engine == engineShown
      ensures engineShown == StationView(fx.config, sessions)
    {
      ApplyLoud(s, Ownership());
      Touch();
    }

    method LiftAndTell(dsIp: Ip, which: set<Robot>)
      requires ConfigOk(fx.config) && fx.engine == engineShown
      modifies this`blocked, this`engineShown, this`pass, this`syncAgain, this`disturbed, fx`engine
      ensures View() == Apply(old(View()), S.LiftBlocks(old(Ownership()), dsIp, which)) && fx.engine == engineShown
      ensures old(engineShown) == StationView(fx.config, sessions) ==> engineShown == StationView(fx.config, sessions)
    {
      hide StationView, RequestSync;
      ghost var s := View();
      var changed := StrikeFrom(dsIp, which);
      PruneEmptyBlocks();
      if changed { TouchAfter(s); }
    }

    /** `dsIp` is no longer a duplicate on the robots in `which`. */
    method LiftBlocks(dsIp: Ip, which: set<Robot>)
      requires Sound()
      modifies this`blocked, this`engineShown, this`pass, this`syncAgain, this`disturbed, fx`engine
      ensures View() == Apply(old(View()), S.LiftBlocks(old(Ownership()), dsIp, which))
      ensures Sound()
      ensures old(engineShown) == StationView(fx.config, sessions) ==> engineShown == StationView(fx.config, sessions)
      ensures sessions == old(sessions) && laptops == old(laptops)
    {
      ghost var s := View();
      LiftAndTell(dsIp, which);
      LiftOwned(s.own, dsIp, which);
      ApplyIgnoresOwn(s, s.own, S.LiftBlocks(s.own, dsIp, which));
    }

    method EndSession(robot: Robot, quiet: bool)
      requires Sound()
      modifies this`sessions, this`blocked, this`engineShown, this`pass, this`syncAgain, this`disturbed, fx`engine
      ensures Sound()
      ensures !quiet ==> View() == Apply(old(View()), S.EndSession(old(Ownership()), robot))
      ensures quiet ==> View() == old(View()).(own := if robot in old(sessions) then Without(old(Ownership()), {robot}) else old(Ownership()))
    {
      if robot !in sessions { return; }
      ghost var s := View();
      WithoutOwned(s.own, {robot});
      sessions := sessions - {robot};
      blocked := blocked - {robot};
      if !quiet { TouchAfter(s); }
    }

    /** `dsIp` leaves whatever it drives, takes `robot`, and is held off nothing. */
    method TakeRobot(robot: Robot, dsIp: Ip)
      requires Sound() && dsIp in laptops
      modifies this`laptops, this`sessions, this`blocked, this`engineShown, this`pass, this`syncAgain, this`disturbed, fx`engine
      ensures View() == old(View()).(own := Take(LetGo(old(Ownership()), dsIp), robot, dsIp)) && fx.engine == engineShown
    {
      ghost var o := Ownership();
      var previous := RobotDrivenBy(dsIp);
      if previous.Some? { EndSession(previous.value, true); }
      assert Ownership() == LetGo(o, dsIp);
      sessions := sessions[robot := dsIp];
      laptops := laptops[dsIp := laptops[dsIp].(lastRobot := Some(robot))];
      var _ := StrikeFrom(dsIp, blocked.Keys);
      PruneEmptyBlocks();
    }

    /** `dsIp` is a duplicate on `robot`, unless it drives another one. */
    method HoldOff(robot: Robot, dsIp: Ip)
      requires Sound() && dsIp in laptops && robot in sessions
      requires Refused(Surroundings(), Ownership(), robot, dsIp)
      modifies this`blocked, this`engineShown, this`pass, this`syncAgain, this`disturbed, fx`engine
      ensures View() == Apply(old(View()), S.Claim(old(Surroundings()), old(Ownership()), robot, dsIp))
      ensures fx.engine == engineShown
    {
      var driving := RobotDrivenBy(dsIp);
      if driving.Some? { return; }
      var ips := if robot in blocked then blocked[robot] else {};
      if dsIp !in ips {
        ghost var s := View();
        blocked := blocked[robot := ips + {dsIp}];
        TouchAfter(s);
      }
    }

    /** Give `robot` to `dsIp`, unless another laptop is actively driving it. */
    method Claim(robot: Robot, dsIp: Ip) returns (ok: bool)
      requires Sound() && dsIp in laptops
      modifies this`laptops, this`sessions, this`blocked, this`engineShown, this`pass, this`syncAgain, this`disturbed, fx`engine
      ensures Sound()
      ensures View() == Apply(old(View()), S.Claim(old(Surroundings()), old(Ownership()), robot, dsIp))
      ensures ok <==> !Refused(old(Surroundings()), old(Ownership()), robot, dsIp)
    {
      ghost var s := View();
      ClaimOwned(s.env, s.own, robot, dsIp);
      if robot in sessions && sessions[robot] == dsIp { return true; }
      if robot in sessions && sessions[robot] in laptops
         && fx.now - laptops[sessions[robot]].lastActivity <= DS_STALE_TIMEOUT_MS {
        HoldOff(robot, dsIp);
        return false;
      }
      TakeRobot(robot, dsIp);
      TouchAfter(s);
      ok := true;
    }

    // ── Inputs ──────────────────────────────────────────────────────

    /** The rest of a handshake of `team` from `dsIp`, which drives nothing. */
    method OfferRobot(dsIp: Ip, team: Team)
      requires Sound() && dsIp in laptops
      modifies this`laptops, this`sessions, this`blocked, this`engineShown, this`pass, this`syncAgain, this`disturbed, fx`engine
      ensures Sound() && View() == Apply(old(View()), Offer(old(Surroundings()), old(Ownership()), dsIp, team))
    {
      var robots := FindRobots(team);
      if |robots| == 1 {
        var _ := Claim(robots[0], dsIp);
        return;
      }
      var last := laptops[dsIp].lastRobot;
      if last.Some? && last.value in robots && IsFree(last.value) {
        var _ := Claim(last.value, dsIp);
      }
    }

    predicate IsFree(robot: Robot) reads this, fx
      ensures IsFree(robot) == Free(Surroundings(), Ownership(), robot)
    {
      robot !in sessions || sessions[robot] !in laptops
      || fx.now - laptops[sessions[robot]].lastActivity > DS_STALE_TIMEOUT_MS
    }

    method PlaceLaptop(dsIp: Ip, team: Team)
      requires Sound() && dsIp in laptops && engineShown == StationView(fx.config, sessions)
      modifies this`laptops, this`sessions, this`blocked, this`engineShown, this`pass, this`syncAgain, this`disturbed, fx`engine
      ensures Sound() && View() == Apply(old(View()), Place(old(Surroundings()), old(Ownership()), dsIp, team))
    {
      ghost var s := View();
      var driving := RobotDrivenBy(dsIp);
      if driving.Some? && TeamOf(driving.value) == Some(team) {
        KeepAlive(driving.value, dsIp);
        return;
      }
      if driving.Some? { EndSession(driving.value, false); }
      ghost var ended := if driving.Some? then S.EndSession(s.own, driving.value) else Quiet(s.own);
      OfferRobot(dsIp, team);
      ApplyThen(s, ended, Offer(s.env, ended.own, dsIp, team));
    }

    /** A message from a driving laptop feeds the engine's liveness record,
        which already names this laptop. */
    method KeepAlive(robot: Robot, dsIp: Ip)
      requires Sound() && robot in sessions && sessions[robot] == dsIp
      requires engineShown == StationView(fx.config, sessions)
      modifies fx`engine
      ensures fx.engine == engineShown
    {
      var station := FindStation(robot);
      if station.Some? { fx.EngineSetDs(station.value, dsIp); }
    }

    method Record(dsIp: Ip, team: Option<Team>)
      requires Sound()
      modifies this`laptops
      ensures View() == old(View()).(own := Hear(old(Surroundings()), old(Ownership()), dsIp, team)) && Sound()
    {
      OtherRecordsOwned(Ownership(), Hear(Surroundings(), Ownership(), dsIp, team).laptops);
      if dsIp in laptops {
        laptops := laptops[dsIp := laptops[dsIp].(lastActivity := fx.now)];
        if team.Some? { laptops := laptops[dsIp := laptops[dsIp].(team := team)]; }
      } else {
        laptops := laptops[dsIp := Laptop(team, fx.now, None)];
      }
    }

    /** A handshake: it is no duplicate on other teams' robots any more. */
    method HeardTeam(dsIp: Ip, team: Team)
      requires Sound() && dsIp in laptops && engineShown == StationView(fx.config, sessions)
      modifies this`laptops, this`sessions, this`blocked, this`engineShown, this`pass, this`syncAgain, this`disturbed, fx`engine
      ensures var lifted := S.LiftBlocks(old(Ownership()), dsIp, OtherTeams(old(Ownership()), team));
        View() == Apply(old(View()), Then(lifted, Place(old(Surroundings()), lifted.own, dsIp, team)))
      ensures Sound()
    {
      ghost var s := View();
      ghost var lifted := S.LiftBlocks(s.own, dsIp, OtherTeams(s.own, team));
      LiftBlocks(dsIp, set r | r in blocked && TeamOf(r) != Some(team));
      PlaceLaptop(dsIp, team);
      ApplyThen(s, lifted, Place(s.env, lifted.own, dsIp, team));
    }

    /** A message from a Driver Station laptop, with its team if it says so. */
    method Heard(dsIp: Ip, team: Option<Team>)
      requires Valid()
      modifies this`laptops, this`sessions, this`blocked, this`engineShown, this`pass, this`syncAgain, this`disturbed, fx`engine
      ensures View() == Apply(old(View()), S.Heard(old(Surroundings()), old(Ownership()), dsIp, team))
      ensures Valid()
    {
      if dsIp !in laptops && team.None? { return; }
      ghost var s := View();
      ghost var out := S.Heard(s.env, s.own, dsIp, team);
      HeardOwned(s.env, s.own, dsIp, team);
      HeardTold(s.env, s.own, dsIp, team);
      ShownAfter(s, out);
      Record(dsIp, team);
      ApplyIgnoresOwn(s, Ownership(), out);
      if team.None? {
        var driving := RobotDrivenBy(dsIp);
        if driving.Some? { KeepAlive(driving.value, dsIp); }
        return;
      }
      HeardTeam(dsIp, team.value);
    }

    /** The Drive button: drive the robot on `station`, or stop driving. */
    method Drive(dsIp: Ip, station: Option<Station>)
      requires Valid()
      modifies this`laptops, this`sessions, this`blocked, this`engineShown, this`pass, this`syncAgain, this`disturbed, fx`engine
      ensures View() == Apply(old(View()), S.Drive(old(Surroundings()), old(Ownership()), dsIp, station))
      ensures Valid()
    {
      ghost var s := View();
      DriveOwned(s.env, s.own, dsIp, station);
      ShownAfter(s, S.Drive(s.env, s.own, dsIp, station)) by { DriveTold(s.env, s.own, dsIp, station); }
      if dsIp in laptops {
        laptops := laptops[dsIp := laptops[dsIp].(lastActivity := fx.now)];
      } else {
        laptops := laptops[dsIp := Laptop(None, fx.now, None)];
      }
      ghost var o1 := Active(s.env, s.own, dsIp);
      assert Ownership() == o1;
      OtherRecordsOwned(s.own, o1.laptops);
      if station.None? {
        Stop(dsIp);
        ApplyIgnoresOwn(s, o1, StopDriving(o1, dsIp));
      } else if station.value in fx.config {
        var _ := Claim(fx.config[station.value], dsIp);
        ApplyIgnoresOwn(s, o1, S.Claim(s.env, o1, s.env.config[station.value], dsIp));
      }
    }

    /** Stopped on purpose: it does not take the robot back at its next handshake. */
    method Stop(dsIp: Ip)
      requires Sound() && dsIp in laptops
      modifies this`laptops, this`sessions, this`blocked, this`engineShown, this`pass, this`syncAgain, this`disturbed, fx`engine
      ensures Sound() && View() == Apply(old(View()), StopDriving(old(Ownership()), dsIp))
    {
      ghost var s := View();
      var driving := RobotDrivenBy(dsIp);
      if driving.Some? { EndSession(driving.value, false); }
      ghost var ended := if driving.Some? then S.EndSession(s.own, driving.value) else Quiet(s.own);
      laptops := laptops[dsIp := laptops[dsIp].(lastRobot := None)];
      ghost var forgot := Forget(ended.own, dsIp);
      assert Ownership() == forgot;
      OtherRecordsOwned(ended.own, forgot.laptops);
      LiftBlocks(dsIp, blocked.Keys);
      ghost var lifted := S.LiftBlocks(forgot, dsIp, forgot.blocked.Keys);
      ApplyIgnoresOwn(Apply(s, ended), forgot, lifted);
      ApplyThen(s, ended, lifted);
    }

    /** A laptop's connection closed: its blocks lift where nobody is actively driving. */
    method Disconnected(dsIp: Ip)
      requires Valid()
      modifies this`blocked, this`engineShown, this`pass, this`syncAgain, this`disturbed, fx`engine
      ensures View() == Apply(old(View()), S.Disconnected(old(Surroundings()), old(Ownership()), dsIp))
      ensures Valid()
    {
      var free := set r | r in blocked && IsFree(r);
      assert free == set r | r in blocked && Free(Surroundings(), Ownership(), r);
      LiftBlocks(dsIp, free);
    }

    /** The sessions of robots that left the field end, in some order. */
    method EndDeparted() returns (ghost gone: seq<Robot>)
      requires Sound()
      modifies this`sessions, this`blocked, this`engineShown, this`pass, this`syncAgain, this`disturbed, fx`engine
      ensures Sound() && Elements(gone) == Gone(old(Surroundings()), old(Ownership()))
      ensures View() == Apply(old(View()), EndEach(old(Ownership()), gone))
    {
      ghost var s := View();
      gone := [];
      var left := sessions.Keys;
      while left != {}
        invariant Sound() && left <= s.own.sessions.Keys
        invariant View() == Apply(s, EndEach(s.own, gone)) && Surroundings() == s.env
        invariant forall r :: r in gone <==> r in s.own.sessions && r !in left && !OnField(s.env.config, r)
        decreases left
      {
        var robot :| robot in left;
        left := left - {robot};
        var station := FindStation(robot);
        OnFieldHasStation(fx.config, robot);
        if station.None? {
          EndAnother(s, gone, robot);
          EndSession(robot, false);
          gone := gone + [robot];
        }
      }
    }

    lemma EndAnother(s: State, gone: seq<Robot>, robot: Robot)
      ensures var ended := EndEach(s.own, gone);
        Apply(Apply(s, ended), S.EndSession(ended.own, robot)) == Apply(s, EndEach(s.own, gone + [robot]))
    {
      var ended := EndEach(s.own, gone);
      ApplyThen(s, ended, S.EndSession(ended.own, robot));
      assert (gone + [robot])[..|gone + [robot]| - 1] == gone;
    }

    method DropDeparted()
      modifies this`blocked
      ensures Ownership() == DropOffField(Surroundings(), old(Ownership()))
    {
      ghost var held := blocked;
      var left := blocked.Keys;
      while left != {}
        invariant left <= held.Keys
        invariant forall r :: r in blocked <==> r in held && (r in left || OnField(fx.config, r))
        invariant forall r :: r in blocked ==> blocked[r] == held[r]
        decreases left
      {
        var robot :| robot in left;
        left := left - {robot};
        var station := FindStation(robot);
        OnFieldHasStation(fx.config, robot);
        if station.None? { blocked := blocked - {robot}; }
      }
      assert blocked == DropOffField(Surroundings(), old(Ownership())).blocked;
    }

    /** All known laptops, in some order. */
    method ListLaptops() returns (listed: seq<Ip>)
      ensures forall ip :: ip in listed <==> ip in laptops
    {
      listed := [];
      var left := laptops.Keys;
      while left != {}
        invariant left <= laptops.Keys
        invariant forall ip :: ip in listed <==> ip in laptops && ip !in left
        decreases left
      {
        var ip :| ip in left;
        left := left - {ip};
        listed := listed + [ip];
      }
    }

    method FindFreshest(team: Team, listed: seq<Ip>) returns (best: Option<Ip>)
      requires Sound() && forall ip :: ip in listed ==> ip in laptops
      ensures best == Freshest(Surroundings(), Ownership(), team, listed)
    {
      best := None;
      for i := 0 to |listed|
        invariant best == Freshest(Surroundings(), Ownership(), team, listed[..i])
      {
        assert listed[..i + 1][..i] == listed[..i];
        var ip := listed[i];
        assert ip in listed;
        var driving := RobotDrivenBy(ip);
        if laptops[ip].team == Some(team) && fx.now - laptops[ip].lastActivity <= DS_STALE_TIMEOUT_MS && driving.None?
           && !(best.Some? && laptops[best.value].lastActivity >= laptops[ip].lastActivity) {
          best := Some(ip);
        }
      }
      assert listed[..|listed|] == listed;
    }

    /** A robot nobody drives goes to a laptop of its team already talking to us. */
    method ArriveAt(station: Station, listed: seq<Ip>)
      requires Sound() && forall ip :: ip in listed ==> ip in laptops
      modifies this`laptops, this`sessions, this`blocked, this`engineShown, this`pass, this`syncAgain, this`disturbed, fx`engine
      ensures View() == Apply(old(View()), Arrive(old(Surroundings()), old(Ownership()), station, listed))
      ensures Sound() && laptops.Keys == old(laptops.Keys)
    {
      if station !in fx.config || fx.config[station] in sessions { return; }
      var robot := fx.config[station];
      var team := TeamOf(robot);
      if team.None? { return; }
      var robots := FindRobots(team.value);
      if |robots| != 1 { return; }
      var waiting := FindFreshest(team.value, listed);
      if waiting.Some? {
        ClaimOwned(Surroundings(), Ownership(), robot, waiting.value);
        ghost var s := View();
        var _ := Claim(robot, waiting.value);
        ApplyIgnoresOwn(s, s.own, S.Claim(s.env, s.own, robot, waiting.value));
      }
    }

    lemma ArriveAnother(s: State, slots: seq<Station>, station: Station, listed: seq<Ip>)
      ensures var before := Arrivals(s.env, s.own, slots, listed);
        Apply(Apply(s, before), Arrive(s.env, before.own, station, listed)) == Apply(s, Arrivals(s.env, s.own, slots + [station], listed))
    {
      var before := Arrivals(s.env, s.own, slots, listed);
      ApplyThen(s, before, Arrive(s.env, before.own, station, listed));
      assert (slots + [station])[..|slots + [station]| - 1] == slots;
    }

    method ArriveAll(slots: seq<Station>, listed: seq<Ip>)
      requires Sound() && forall ip :: ip in listed ==> ip in laptops
      modifies this`laptops, this`sessions, this`blocked, this`engineShown, this`pass, this`syncAgain, this`disturbed, fx`engine
      ensures Sound() && View() == Apply(old(View()), Arrivals(old(Surroundings()), old(Ownership()), slots, listed))
    {
      hide Owned, Arrive, TouchEach, ConfigOk;
      ghost var s := View();
      ApplyNothing(s);
      for k := 0 to |slots|
        invariant Sound() && laptops.Keys == s.own.laptops.Keys
        invariant View() == Apply(s, Arrivals(s.env, s.own, slots[..k], listed)) && Surroundings() == s.env
      {
        ApplyIgnoresOwn(s, s.own, Arrivals(s.env, s.own, slots[..k], listed));
        ArriveAnother(s, slots[..k], slots[k], listed);
        assert slots[..k + 1] == slots[..k] + [slots[k]];
        ArriveAt(slots[k], listed);
      }
      assert slots[..|slots|] == slots;
    }

    /** The radio's config has changed: robots arrived, left, or moved. */
    method ConfigChanged() returns (ghost gone: seq<Robot>, ghost listed: seq<Ip>)
      requires Sound()
      modifies this`laptops, this`sessions, this`blocked, this`engineShown, this`pass, this`syncAgain, this`disturbed, fx`engine
      ensures Elements(gone) == Gone(old(Surroundings()), old(Ownership()))
      ensures forall ip :: ip in listed <==> ip in old(laptops)
      ensures View() == Apply(old(View()), S.ConfigChanged(old(Surroundings()), old(Ownership()), gone, listed))
      ensures Valid()
    {
      hide Owned, Arrivals, DropOffField, TouchEach;
      ghost var s := View();
      gone := EndDeparted();
      ghost var ended := EndEach(s.own, gone);
      ApplyIgnoresOwn(s, s.own, ended);
      EndEachOwned(s.own, gone);
      DepartedOwned(s.env, s.own, gone);
      DropDeparted();
      ghost var s2 := View();
      var all := ListLaptops();
      listed := all;
      ArriveAll(STATIONS, all);
      ghost var arrived := Arrivals(s.env, s2.own, STATIONS, listed);
      ApplyIgnoresOwn(Apply(s, ended), s2.own, arrived);
      ApplyIgnoresOwn(s2, s2.own, arrived);
      ApplyThen(s, ended, arrived);
      ghost var s3 := View();
      TouchAfter(s3);
      ApplyThen(s, Then(ended, arrived), Loud(arrived.own));
      ConfigChangedOwned(s.env, s.own, gone, listed);
    }

    predicate IsStale(dsIp: Ip) reads this, fx
      ensures IsStale(dsIp) == Stale(Surroundings(), Ownership(), dsIp)
    {
      dsIp !in laptops || fx.now - laptops[dsIp].lastActivity > DS_STALE_TIMEOUT_MS
    }

    method EndStale() returns (changed: bool)
      modifies this`sessions, this`blocked
      ensures laptops == old(laptops)
      ensures Ownership() == Without(old(Ownership()), StaleRobots(Surroundings(), old(Ownership())))
      ensures changed <==> StaleRobots(Surroundings(), old(Ownership())) != {}
    {
      ghost var o := Ownership();
      var stale: set<Robot> := {};
      var left := sessions.Keys;
      while left != {}
        invariant left <= o.sessions.Keys && Ownership() == o
        invariant forall r :: r in stale <==> r in StaleRobots(Surroundings(), o) && r !in left
        decreases left
      {
        var robot :| robot in left;
        left := left - {robot};
        if IsStale(sessions[robot]) { stale := stale + {robot}; }
      }
      assert stale == StaleRobots(Surroundings(), o);
      changed := stale != {};
      sessions := sessions - stale;
      blocked := blocked - stale;
    }

    method LiftStale() returns (changed: bool)
      modifies this`blocked
      ensures blocked == WithoutStale(Surroundings(), old(Ownership()))
      ensures changed <==> exists r :: r in old(blocked) && exists ip :: ip in old(blocked)[r] && Stale(Surroundings(), old(Ownership()), ip)
    {
      ghost var o := Ownership();
      changed := false;
      var left := blocked.Keys;
      while left != {}
        invariant left <= o.blocked.Keys && blocked.Keys == o.blocked.Keys && laptops == o.laptops
        invariant forall r :: r in blocked ==> blocked[r] == if r in left then o.blocked[r] else WithoutStale(Surroundings(), o)[r]
        invariant changed <==> exists r :: r in o.blocked && r !in left && exists ip :: ip in o.blocked[r] && Stale(Surroundings(), o, ip)
        decreases left
      {
        var robot :| robot in left;
        left := left - {robot};
        var quiet := set ip | ip in blocked[robot] && IsStale(ip);
        if quiet != {} {
          changed := true;
          assert exists ip :: ip in o.blocked[robot] && Stale(Surroundings(), o, ip) by {
            var ip :| ip in quiet;
          }
        } else {
          assert forall ip :: ip in o.blocked[robot] ==> ip !in quiet;
        }
        assert blocked[robot] - quiet == WithoutStale(Surroundings(), o)[robot];
        blocked := blocked[robot := blocked[robot] - quiet];
      }
    }

    method LetQuietGo() returns (changed: bool)
      modifies this`sessions, this`blocked
      ensures Ownership() == LetGoStale(Surroundings(), old(Ownership()))
      ensures changed <==> AnyStale(Surroundings(), old(Ownership()))
    {
      ghost var e, o := Surroundings(), Ownership();
      var ended := EndStale();
      ghost var o1 := Ownership();
      assert forall ip :: Stale(e, o1, ip) <==> Stale(e, o, ip);
      var lifted := LiftStale();
      PruneEmptyBlocks();
      changed := ended || lifted;
    }

    method ForgetIdle()
      requires OneEach(sessions)
      modifies this`laptops
      ensures laptops == KeepLaptops(Surroundings(), old(Ownership()))
    {
      ghost var o := Ownership();
      var left := laptops.Keys;
      while left != {}
        invariant left <= o.laptops.Keys
        invariant forall ip :: ip in laptops <==> ip in o.laptops && (ip in left || ip in KeepLaptops(Surroundings(), o))
        invariant forall ip :: ip in laptops ==> laptops[ip] == o.laptops[ip]
        decreases left
      {
        var ip :| ip in left;
        left := left - {ip};
        var driving := RobotDrivenBy(ip);
        var held := IsHeldOff(ip);
        assert Drives(Ownership(), ip) <==> Drives(o, ip) by {
          FewerDrivers(o, Ownership());
          FewerDrivers(Ownership(), o);
        }
        assert IsBlocked(Ownership(), ip) <==> IsBlocked(o, ip);
        if fx.now - laptops[ip].lastActivity >= LAPTOP_FORGET_MS && driving.None? && !held {
          laptops := laptops - {ip};
        }
      }
      assert laptops == KeepLaptops(Surroundings(), o);
    }

    method SweepOwnership() returns (changed: bool)
      requires Owned(Ownership())
      modifies this`laptops, this`sessions, this`blocked
      ensures Ownership() == S.Sweep(Surroundings(), old(Ownership())).own
      ensures changed <==> AnyStale(Surroundings(), old(Ownership()))
    {
      LetGoStaleOwned(Surroundings(), Ownership());
      changed := LetQuietGo();
      ForgetIdle();
    }

    /** Every few seconds: let quiet laptops go, and sync in any case. */
    method Sweep()
      requires Valid()
      modifies this`laptops, this`sessions, this`blocked, this`engineShown, this`pass, this`syncAgain, this`disturbed, fx`engine
      ensures View() == ApplySweep(old(View()))
      ensures Valid()
    {
      hide Owned, S.Sweep, RequestSync, Told, TouchEach, AnyStale, ApplySweep, Demand, StationView, ConfigOk, Loud;
      SweepCases(View());
      ghost var s := View();
      ghost var out := S.Sweep(s.env, s.own);
      var changed := SweepOwnership();
      SweepOwned(s.env, s.own);
      SweepTold(s.env, s.own);
      ShownAfter(s, out);
      if changed { TouchAfter(s); } else { Sync(); }
    }

    // ── Restarts ────────────────────────────────────────────────────

    method AdoptRules(dnat: seq<DnatRule>)
      requires ConfigOk(fx.config)
      modifies this`laptops, this`sessions, this`installedDnat
      ensures Ownership() == AdoptAll(Surroundings(), old(Ownership()), dnat)
      ensures installedDnat == AdoptedRules(old(installedDnat), dnat)
    {
      for i := 0 to |dnat|
        invariant Ownership() == AdoptAll(Surroundings(), old(Ownership()), dnat[..i])
        invariant installedDnat == AdoptedRules(old(installedDnat), dnat[..i])
      {
        assert dnat[..i + 1][..i] == dnat[..i];
        var rule := dnat[i];
        var copies := if rule in installedDnat then installedDnat[rule] else 0;
        installedDnat := installedDnat[rule := copies + 1];
        if rule.station in fx.config && TeamOf(fx.config[rule.station]) == Some(rule.team)
           && fx.config[rule.station] !in sessions {
          laptops := laptops[rule.dsIp := Laptop(Some(rule.team), fx.now, None)];
          sessions := sessions[fx.config[rule.station] := rule.dsIp];
        }
      }
      assert dnat[..|dnat|] == dnat;
    }

    method AdoptBlocks(blocks: seq<BlockRule>)
      modifies this`installedBlocks
      ensures installedBlocks == old(installedBlocks) + set b | b in blocks
    {
      for i := 0 to |blocks|
        invariant installedBlocks == old(installedBlocks) + set b | b in blocks[..i]
      {
        installedBlocks := installedBlocks + {blocks[i]};
      }
      assert blocks[..|blocks|] == blocks;
    }

    /** Take up the rules the previous process left in the kernel. */
    method Restore(dnat: seq<DnatRule>, blocks: seq<BlockRule>)
      requires ConfigOk(fx.config) && fx.engine == engineShown && Ownership() == NOBODY
      modifies this, fx`engine
      ensures View() == S.Restore(old(View()), dnat, blocks) && fx.engine == engineShown
      ensures Valid() <==> DistinctLaptops(Surroundings(), dnat)
    {
      RestoreOwnedIffDistinct(Surroundings(), dnat);
      AdoptAllShape(Surroundings(), dnat);
      AdoptRules(dnat);
      AdoptBlocks(blocks);
      Touch();
    }

    /** The kernel rules are gone: forget them and put the sessions' rules back. */
    method KernelFlushed()
      requires Valid() && fx.dnat == multiset{} && fx.blocks == multiset{}
      modifies this`installedDnat, this`installedBlocks, this`pass, this`syncAgain, this`disturbed
      ensures View() == S.KernelFlushed(old(View()))
      ensures Valid()
    {
      installedDnat := map[];
      installedBlocks := {};
      Sync();
    }

    // ── A sync pass between two awaits ──────────────────────────────

    method PerformDnat(item: Item)
      requires item.DropDnat? || item.PutDnat?
      modifies this`installedDnat, fx`dnat
      ensures Records() == Effect(old(Records()), item)
    {
      if item.DropDnat? {
        fx.dnat := TakeCopies(fx.dnat, item.rule, item.copies);
        installedDnat := installedDnat - {item.rule};
      } else {
        fx.dnat := fx.dnat + multiset{item.rule};
        installedDnat := installedDnat[item.rule := 1];
      }
    }

    method PerformBlock(item: Item)
      requires item.DropBlock? || item.PutBlock?
      modifies this`installedBlocks, fx`blocks
      ensures Records() == Effect(old(Records()), item)
    {
      if item.DropBlock? {
        fx.blocks := fx.blocks - multiset{item.block};
        installedBlocks := installedBlocks - {item.block};
      } else {
        fx.blocks := fx.blocks + multiset{item.block};
        installedBlocks := installedBlocks + {item.block};
      }
    }

    method PerformRoute(item: Item)
      requires item.DropRoute? || item.PutRoute?
      modifies this`routed, fx`routes
      ensures Records() == Effect(old(Records()), item)
    {
      if item.DropRoute? {
        fx.routes := fx.routes - {item.ip};
        routed := routed - {item.ip};
      } else {
        fx.routes := fx.routes[item.rule.dsIp := item.rule.station];
        routed := routed + {item.rule.dsIp};
      }
    }

    /** The effect of `item`, and the record made of it. */
    method Perform(item: Item)
      modifies this`installedDnat, this`installedBlocks, this`routed, fx`dnat, fx`blocks, fx`routes
      ensures Records() == Effect(old(Records()), item)
    {
      hide Effect;
      if item.DropDnat? || item.PutDnat? {
        PerformDnat(item);
      } else if item.DropBlock? || item.PutBlock? {
        PerformBlock(item);
      } else {
        PerformRoute(item);
      }
    }

    predicate IsNeeded(want: Want, item: Item) reads this, fx
      ensures IsNeeded(want, item) == Needed(Records(), want, item)
    {
      match item
      case DropDnat(rule, _) => rule !in want.dnat
      case DropBlock(block) => block !in want.blocks
      case DropRoute(ip) => ip !in RoutesOf(want)
      case PutDnat(rule) => rule !in installedDnat
      case PutBlock(block) => block !in installedBlocks
      case PutRoute(rule) => !(rule.dsIp in fx.routes && fx.routes[rule.dsIp] == rule.station)
    }

    /** A route already right is recorded as ours. */
    method PassOver(item: Item)
      modifies this`routed
      ensures Records() == Skip(old(Records()), item)
    {
      if item.PutRoute? { routed := routed + {item.rule.dsIp}; }
    }

    method CheckOff(p: Pass, item: Item, fine: bool)
      modifies this`pass
      ensures Records() == old(Records()).(pass := Some(p.(todo := p.todo - {item}, ok := p.ok && fine)))
    {
      pass := Some(p.(todo := p.todo - {item}, ok := p.ok && fine));
    }

    /** The await on `item`'s effect is over: it succeeded, or it failed and
        stays recorded for the next pass. */
    method Resume(item: Item, ok: bool)
      requires pass.Some? && item in pass.value.todo
      modifies this`pass, this`installedDnat, this`installedBlocks, this`routed, fx`dnat, fx`blocks, fx`routes
      ensures View() == old(View()).(rec := Work(old(Records()), item, ok))
    {
      hide Effect, Skip, Needed, IsNeeded;
      var p := pass.value;
      var needed := IsNeeded(p.want, item);
      ghost var r := Records();
      if !needed {
        PassOver(item);
      } else if ok {
        Perform(item);
      }
      assert Records() == if !needed then Skip(r, item) else if ok then Effect(r, item) else r;
      CheckOff(p, item, !needed || ok);
    }

    /** The loop of the current stage is done. */
    method NextStage()
      requires Valid() && pass.Some? && pass.value.todo == {}
      modifies this`pass, this`syncAgain, this`served, this`servedOk, this`disturbed
      ensures View() == old(View()).(rec := Advance(old(Records()), Demand(fx.config, Ownership())))
      ensures Valid()
    {
      var p := pass.value;
      match p.stage {
        case DroppingDnat => pass := Some(p.(stage := DroppingBlocks, todo := set b | b in installedBlocks :: DropBlock(b)));
        case DroppingBlocks => pass := Some(p.(stage := DroppingRoutes, todo := set ip | ip in routed :: DropRoute(ip)));
        case DroppingRoutes => pass := Some(p.(stage := PuttingDnat, todo := set r | r in p.want.dnat :: PutDnat(r)));
        case PuttingDnat => pass := Some(p.(stage := PuttingBlocks, todo := set b | b in p.want.blocks :: PutBlock(b)));
        case PuttingBlocks => pass := Some(p.(stage := PuttingRoutes, todo := set r | r in p.want.dnat :: PutRoute(r)));
        case PuttingRoutes =>
          if syncAgain {
            Begin();
          } else {
            pass, served, servedOk := None, p.want, p.ok;
          }
      }
    }
  }
}
