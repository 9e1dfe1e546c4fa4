/** What each input does, in terms of who drives what before and after it:
    which robot a laptop gets, which sessions and blocks end, and what is
    remembered of the laptops. */
module DriveEffects {
  import opened Field
  import opened DriveState
  import opened DriveOwnership
  import opened DriveReconciler
  import opened DriveRuns
  import opened DriveTheorems
  import OnLink

  /** The laptop said something in the last twenty seconds. */
  predicate Live(e: Env, o: Own, ip: Ip) { ip in o.laptops && e.now - o.laptops[ip].lastActivity <= 20_000 }

  /** A laptop other than `ip` is actively driving `robot`. */
  predicate Taken(e: Env, o: Own, robot: Robot, ip: Ip) {
    robot in o.sessions && o.sessions[robot] != ip && Live(e, o, o.sessions[robot])
  }

  ghost predicate OfTeam(config: Config, team: Team, robot: Robot) {
    OnField(config, robot) && TeamOf(robot) == Some(team)
  }

  /** `robot` is the one robot of `team` on the field. */
  ghost predicate OnlyRobot(config: Config, team: Team, robot: Robot) {
    OfTeam(config, team, robot) && forall other :: OfTeam(config, team, other) ==> other == robot
  }

  ghost predicate OneRobot(config: Config, team: Team) { exists robot :: OnlyRobot(config, team, robot) }

  /** From `o` to `o'` every session of another laptop is as it was, but for
      the robot `ip` now drives, and `ip` drives no other. */
  ghost predicate NowDrives(o: Own, o': Own, ip: Ip, robot: Option<Robot>) {
    && (forall r :: r in o'.sessions <==> Some(r) == robot || (r in o.sessions && o.sessions[r] != ip))
    && (forall r :: r in o'.sessions ==> o'.sessions[r] == if Some(r) == robot then ip else o.sessions[r])
  }

  /** Blocks of other laptops stay while their robot has a driver; those of
      `ip` are the ones on the robots of `left`. */
  ghost predicate NowHeldOff(o: Own, o': Own, ip: Ip, left: set<Robot>) {
    forall r, x :: HeldOff(o', r, x) <==> if x == ip then r in left else HeldOff(o, r, x) && r in o'.sessions
  }

  /** Only the record of `ip` may differ. */
  ghost predicate OthersRecords(o: Own, o': Own, ip: Ip) {
    o'.laptops.Keys - {ip} == o.laptops.Keys - {ip}
    && forall x :: x in o.laptops && x != ip ==> x in o'.laptops && o'.laptops[x] == o.laptops[x]
  }

  // ── One robot of a team ───────────────────────────────────────────

  lemma ListedOfTeam(config: Config, team: Team, robot: Robot)
    ensures robot in RobotsOfTeam(config, team, STATIONS) <==> OfTeam(config, team, robot)
  {
    if OfTeam(config, team, robot) {
      var st :| st in config && config[st] == robot;
      EveryStationListed(st);
      var k :| 0 <= k < |STATIONS| && STATIONS[k] == st;
    }
  }

  lemma TwoListed(config: Config, team: Team)
    requires ConfigOk(config) && |RobotsOfTeam(config, team, STATIONS)| > 1
    ensures RobotsOfTeam(config, team, STATIONS)[0] != RobotsOfTeam(config, team, STATIONS)[1]
  {
    var robots := RobotsOfTeam(config, team, STATIONS);
    InSlotOrder(config, team, STATIONS, 0, 1);
    var a: nat, b: nat :| OnSlots(config, STATIONS, robots[0], robots[1], a, b);
  }

  lemma OneListed(config: Config, team: Team)
    requires ConfigOk(config)
    ensures |RobotsOfTeam(config, team, STATIONS)| == 1 <==> OneRobot(config, team)
    ensures |RobotsOfTeam(config, team, STATIONS)| == 1 ==> OnlyRobot(config, team, RobotsOfTeam(config, team, STATIONS)[0])
  {
    var robots := RobotsOfTeam(config, team, STATIONS);
    forall r ensures r in robots <==> OfTeam(config, team, r) { ListedOfTeam(config, team, r); }
    if |robots| == 1 {
      assert robots[0] in robots;
      assert OnlyRobot(config, team, robots[0]);
    } else if |robots| > 1 {
      TwoListed(config, team);
      forall r ensures !OnlyRobot(config, team, r) {
        assert robots[0] in robots && robots[1] in robots;
      }
    }
  }

  // ── A claim ───────────────────────────────────────────────────────

  lemma ClaimRefused(e: Env, o: Own, robot: Robot, ip: Ip)
    requires Owned(o) && ip in o.laptops && Taken(e, o, robot, ip)
    ensures var o' := Claim(e, o, robot, ip).own;
      && o'.sessions == o.sessions && o'.laptops == o.laptops
      && forall r, x :: HeldOff(o', r, x) <==> HeldOff(o, r, x) || (r == robot && x == ip && !Drives(o, ip))
  {
  }

  lemma LetGoIs(e: Env, o: Own, ip: Ip)
    requires Owned(o) && ip in o.laptops
    ensures var o1 := LetGo(o, ip);
      && Owned(o1) && o1.laptops == o.laptops && !Drives(o1, ip) && NowDrives(o, o1, ip, None)
      && (forall r, x :: HeldOff(o1, r, x) <==> HeldOff(o, r, x) && r in o1.sessions)
      && (forall r :: Taken(e, o1, r, ip) <==> Taken(e, o, r, ip))
  {
    LetGoOwned(o, ip);
    var o1 := LetGo(o, ip);
    forall r, x ensures HeldOff(o1, r, x) <==> HeldOff(o, r, x) && r in o1.sessions {
      assert HeldOff(o1, r, x) ==> r in o1.sessions;
    }
  }

  lemma TakeIs(o: Own, robot: Robot, ip: Ip)
    ensures var o' := Take(o, robot, ip);
      && o'.sessions == o.sessions[robot := ip]
      && o'.laptops == Remember(o.laptops, ip, robot)
      && forall r, x :: HeldOff(o', r, x) <==> HeldOff(o, r, x) && x != ip
  {
    var lifted := Lifted(o.blocked, ip, o.blocked.Keys);
    forall r, x ensures HeldOff(Take(o, robot, ip), r, x) <==> HeldOff(o, r, x) && x != ip {
      if r in o.blocked {
        assert x in lifted[r] <==> x in o.blocked[r] && x != ip;
        assert x in lifted[r] ==> lifted[r] != {};
      }
    }
  }

  lemma DrivesThrough(o: Own, mid: Own, o': Own, robot: Robot, ip: Ip)
    requires NowDrives(o, mid, ip, None) && o'.sessions == mid.sessions[robot := ip]
    ensures NowDrives(o, o', ip, Some(robot))
  {
  }

  lemma HeldThrough(o: Own, mid: Own, o': Own, robot: Robot, ip: Ip)
    requires NowDrives(o, mid, ip, None) && o'.sessions == mid.sessions[robot := ip]
    requires !(robot in o.sessions && o.sessions[robot] == ip) && forall r, x :: HeldOff(o, r, x) ==> r in o.sessions
    requires forall r, x :: HeldOff(mid, r, x) <==> HeldOff(o, r, x) && r in mid.sessions
    requires forall r, x :: HeldOff(o', r, x) <==> HeldOff(mid, r, x) && x != ip
    ensures NowHeldOff(o, o', ip, {})
  {
    hide HeldOff;
    forall r, x | HeldOff(o, r, x) && r in o'.sessions ensures r in mid.sessions {}
  }

  lemma HasDriver(o: Own)
    requires Owned(o)
    ensures forall r, x :: HeldOff(o, r, x) ==> r in o.sessions
  {
  }

  lemma TakenOver(e: Env, o: Own, robot: Robot, ip: Ip)
    requires Owned(o) && ip in o.laptops && !(robot in o.sessions && o.sessions[robot] == ip)
    ensures var o' := Take(LetGo(o, ip), robot, ip);
      && NowDrives(o, o', ip, Some(robot)) && NowHeldOff(o, o', ip, {}) && OthersRecords(o, o', ip)
      && ip in o'.laptops && o'.laptops[ip] == o.laptops[ip].(lastRobot := Some(robot))
  {
    hide LetGo, Take, Drives, Owned, HeldOff, NowDrives, NowHeldOff;
    LetGoIs(e, o, ip);
    TakeIs(LetGo(o, ip), robot, ip);
    HasDriver(o);
    DrivesThrough(o, LetGo(o, ip), Take(LetGo(o, ip), robot, ip), robot, ip);
    HeldThrough(o, LetGo(o, ip), Take(LetGo(o, ip), robot, ip), robot, ip);
  }

  lemma ClaimTakes(e: Env, o: Own, robot: Robot, ip: Ip)
    requires Owned(o) && ip in o.laptops && !Taken(e, o, robot, ip)
    ensures var o' := Claim(e, o, robot, ip).own;
      && NowDrives(o, o', ip, Some(robot)) && NowHeldOff(o, o', ip, {}) && OthersRecords(o, o', ip)
      && ip in o'.laptops
      && o'.laptops[ip] == if robot in o.sessions && o.sessions[robot] == ip then o.laptops[ip]
                           else o.laptops[ip].(lastRobot := Some(robot))
  {
    hide LetGo, Take;
    if robot in o.sessions && o.sessions[robot] == ip {
      forall r, x | HeldOff(o, r, x) ensures x != ip && r in o.sessions {}
    } else {
      hide NowDrives, NowHeldOff, OthersRecords, Owned;
      TakenOver(e, o, robot, ip);
    }
  }

  // ── A message from a laptop ───────────────────────────────────────

  /** A message without a team number only proves that a known laptop is
      alive; of an unknown one it is ignored. */
  lemma HeardWithoutTeam(s: State, ip: Ip)
    ensures var o, o' := s.own, Next(s, HeardL(ip, None)).own;
      && o'.sessions == o.sessions && o'.blocked == o.blocked && OthersRecords(o, o', ip)
      && (ip in o'.laptops <==> ip in o.laptops)
      && (ip in o.laptops ==> o'.laptops[ip] == o.laptops[ip].(lastActivity := s.env.now))
  {
  }

  /** The laptop after its message is noted and its blocks on robots of other
      teams are lifted. */
  ghost function Known(e: Env, o: Own, ip: Ip, team: Team): Own {
    LiftBlocks(Hear(e, o, ip, Some(team)), ip, OtherTeams(Hear(e, o, ip, Some(team)), team)).own
  }

  /** The record a handshake leaves, before any robot is taken. */
  function Noted(e: Env, o: Own, ip: Ip, team: Team): Laptop {
    Laptop(Some(team), e.now, if ip in o.laptops then o.laptops[ip].lastRobot else None)
  }

  lemma KnownIs(e: Env, o: Own, ip: Ip, team: Team)
    requires Owned(o)
    ensures var o1 := Known(e, o, ip, team);
      && Owned(o1) && o1.sessions == o.sessions && OthersRecords(o, o1, ip)
      && ip in o1.laptops && o1.laptops[ip] == Noted(e, o, ip, team)
      && (forall r: Robot, x :: HeldOff(o1, r, x) <==> HeldOff(o, r, x) && (x == ip ==> TeamOf(r) == Some(team)))
      && (forall r :: Taken(e, o1, r, ip) <==> Taken(e, o, r, ip))
      && Heard(e, o, ip, Some(team)).own == Place(e, o1, ip, team).own
  {
    hide TeamOf;
    var heard := Hear(e, o, ip, Some(team));
    OtherRecordsOwned(o, heard.laptops);
    LiftOwned(heard, ip, OtherTeams(heard, team));
    forall r, x ensures HeldOff(heard, r, x) <==> HeldOff(o, r, x) {}
  }

  /** Ready for a robot of `team`: its session of any other robot ended. */
  ghost function Ready(e: Env, o: Own, ip: Ip, team: Team): Own { LetGo(Known(e, o, ip, team), ip) }

  ghost predicate DrivesOfTeam(o: Own, ip: Ip, team: Team) {
    exists r :: r in o.sessions && o.sessions[r] == ip && TeamOf(r) == Some(team)
  }

  lemma PlaceEnds(e: Env, o: Own, ip: Ip, team: Team)
    requires Owned(o) && ip in o.laptops && !DrivesOfTeam(o, ip, team)
    ensures Place(e, o, ip, team).own == Offer(e, LetGo(o, ip), ip, team).own
  {
    hide TeamOf, Offer, Owned;
  }

  /** `o2` is `o` but that `ip` has spoken for `team` and drives nothing. */
  ghost predicate MadeReady(e: Env, o: Own, o2: Own, ip: Ip, team: Team) {
    && Owned(o2) && ip in o2.laptops && o2.laptops[ip] == Noted(e, o, ip, team) && OthersRecords(o, o2, ip)
    && !Drives(o2, ip) && NowDrives(o, o2, ip, None)
    && (forall r: Robot, x :: HeldOff(o2, r, x) <==> HeldOff(o, r, x) && r in o2.sessions && (x == ip ==> TeamOf(r) == Some(team)))
    && (forall r :: Taken(e, o2, r, ip) <==> Taken(e, o, r, ip))
  }

  lemma ReadyIs(e: Env, o: Own, ip: Ip, team: Team)
    requires Owned(o)
    ensures MadeReady(e, o, Ready(e, o, ip, team), ip, team)
    ensures !DrivesOfTeam(o, ip, team)
            ==> Heard(e, o, ip, Some(team)).own == Offer(e, Ready(e, o, ip, team), ip, team).own
  {
    hide TeamOf, Offer, Place, Heard, LetGo, Known;
    KnownIs(e, o, ip, team);
    LetGoIs(e, Known(e, o, ip, team), ip);
    if !DrivesOfTeam(o, ip, team) { PlaceEnds(e, Known(e, o, ip, team), ip, team); }
  }

  /** The robot the laptop drove last is on the field, of this team, and nobody
      is actively driving it. */
  ghost predicate LastIsFree(e: Env, o: Own, ip: Ip, team: Team) {
    && ip in o.laptops && o.laptops[ip].lastRobot.Some?
    && OfTeam(e.config, team, o.laptops[ip].lastRobot.value)
    && !Taken(e, o, o.laptops[ip].lastRobot.value, ip)
  }

  lemma OfferIs(e: Env, o: Own, ip: Ip, team: Team)
    requires ConfigOk(e.config) && ip in o.laptops && !Drives(o, ip)
    ensures forall r :: OnlyRobot(e.config, team, r) ==> Offer(e, o, ip, team) == Claim(e, o, r, ip)
    ensures !OneRobot(e.config, team) && LastIsFree(e, o, ip, team)
            ==> Offer(e, o, ip, team) == Claim(e, o, o.laptops[ip].lastRobot.value, ip)
    ensures !OneRobot(e.config, team) && !LastIsFree(e, o, ip, team) ==> Offer(e, o, ip, team) == Quiet(o)
  {
    hide TeamOf, Claim, RobotsOfTeam, OfTeam;
    OneListed(e.config, team);
    forall r ensures r in RobotsOfTeam(e.config, team, STATIONS) <==> OfTeam(e.config, team, r) {
      ListedOfTeam(e.config, team, r);
    }
  }

  /** What the laptop is offered next it has from then on. */
  lemma ReadyTakes(e: Env, o: Own, o2: Own, ip: Ip, team: Team, robot: Robot)
    requires Owned(o) && MadeReady(e, o, o2, ip, team) && !Taken(e, o, robot, ip)
    requires robot in o.sessions ==> o.sessions[robot] != ip
    ensures var o' := Claim(e, o2, robot, ip).own;
      NowDrives(o, o', ip, Some(robot)) && NowHeldOff(o, o', ip, {})
  {
    hide TeamOf, Claim, Drives, Taken;
    ClaimTakes(e, o2, robot, ip);
    var o' := Claim(e, o2, robot, ip).own;
    forall r, x | HeldOff(o, r, x) && r in o'.sessions ensures r in o2.sessions {}
  }

  /** A handshake of a team with one robot on the field: unless another laptop
      is actively driving it, the laptop drives it from now on, whatever it
      drove before, and is held off no robot. */
  lemma HeardTakesOnlyRobot(s: State, ip: Ip, team: Team, robot: Robot)
    requires Inv(s) && OnlyRobot(s.env.config, team, robot) && !Taken(s.env, s.own, robot, ip)
    ensures var o, o' := s.own, Next(s, HeardL(ip, Some(team))).own;
      NowDrives(o, o', ip, Some(robot)) && NowHeldOff(o, o', ip, {})
  {
    hide TeamOf, Heard, Offer, Claim, Ready, OnField, Taken, NowDrives, NowHeldOff, TouchEach, Current, Shown, RecOk;
    if robot in s.own.sessions && s.own.sessions[robot] == ip {
      HeardDrivesOn(s, ip, team, robot);
    } else {
      NotOfTeam(s.env.config, s.own, ip, team, robot);
      ReadyIs(s.env, s.own, ip, team);
      var o2 := Ready(s.env, s.own, ip, team);
      OfferIs(s.env, o2, ip, team);
      ReadyTakes(s.env, s.own, o2, ip, team, robot);
    }
  }

  /** ... and if another laptop is, it keeps the robot, and this one drives
      nothing and is held off that robot and no other. */
  lemma HeardHeldOffOnlyRobot(s: State, ip: Ip, team: Team, robot: Robot)
    requires Inv(s) && OnlyRobot(s.env.config, team, robot) && Taken(s.env, s.own, robot, ip)
    ensures var o, o' := s.own, Next(s, HeardL(ip, Some(team))).own;
      NowDrives(o, o', ip, None) && !Drives(o', ip) && NowHeldOff(o, o', ip, {robot})
  {
    hide TeamOf, Heard, Offer, Claim, Ready, OnField, TouchEach, Current, Shown, RecOk;
    var e, o := s.env, s.own;
    NotOfTeam(e.config, o, ip, team, robot);
    ReadyIs(e, o, ip, team);
    var o2 := Ready(e, o, ip, team);
    OfferIs(e, o2, ip, team);
    ClaimRefused(e, o2, robot, ip);
    forall r | HeldOff(o2, r, ip) ensures r == robot {
      HeldOnField(e.config, o, r, ip);
      assert OfTeam(e.config, team, r);
    }
  }

  lemma HeldOnField(config: Config, o: Own, robot: Robot, ip: Ip)
    requires Owned(o) && AllOnField(config, o) && HeldOff(o, robot, ip)
    ensures OnField(config, robot)
  {
  }

  lemma NotOfTeam(config: Config, o: Own, ip: Ip, team: Team, robot: Robot)
    requires Owned(o) && AllOnField(config, o) && OnlyRobot(config, team, robot) && (robot in o.sessions ==> o.sessions[robot] != ip)
    ensures !DrivesOfTeam(o, ip, team)
  {
    hide OnField;
    forall r | r in o.sessions && o.sessions[r] == ip ensures TeamOf(r) != Some(team) {
      assert OfTeam(config, team, r) ==> r == robot;
    }
  }

  /** A handshake of the team whose robot the laptop drives changes no session. */
  lemma HeardDrivesOn(s: State, ip: Ip, team: Team, robot: Robot)
    requires Inv(s) && robot in s.own.sessions && s.own.sessions[robot] == ip && TeamOf(robot) == Some(team)
    ensures var o, o' := s.own, Next(s, HeardL(ip, Some(team))).own;
      o'.sessions == o.sessions && NowDrives(o, o', ip, Some(robot)) && NowHeldOff(o, o', ip, {})
  {
    hide TeamOf, Place, TouchEach, Known, Heard, OnField, RecOk;
    KnownIs(s.env, s.own, ip, team);
    PlaceStays(s.env, Known(s.env, s.own, ip, team), ip, team, robot);
  }

  lemma PlaceStays(e: Env, o: Own, ip: Ip, team: Team, robot: Robot)
    requires Owned(o) && robot in o.sessions && o.sessions[robot] == ip && TeamOf(robot) == Some(team)
    ensures Place(e, o, ip, team) == Quiet(o)
  {
    hide TeamOf, Offer;
  }

  /** A handshake of a team with several robots on the field, or none, from a
      laptop driving none of them: it gets back the one it drove last, if
      nobody is actively driving that one, ... */
  lemma HeardResumes(s: State, ip: Ip, team: Team)
    requires Inv(s) && !OneRobot(s.env.config, team) && !DrivesOfTeam(s.own, ip, team) && LastIsFree(s.env, s.own, ip, team)
    ensures var o, o' := s.own, Next(s, HeardL(ip, Some(team))).own;
      NowDrives(o, o', ip, o.laptops[ip].lastRobot) && NowHeldOff(o, o', ip, {})
  {
    hide TeamOf, Heard, Offer, Claim, Ready, OneRobot, OnField, Taken, NowDrives, NowHeldOff, TouchEach, Current, Shown, RecOk;
    ReadyIs(s.env, s.own, ip, team);
    var o2 := Ready(s.env, s.own, ip, team);
    OfferIs(s.env, o2, ip, team);
    ReadyTakes(s.env, s.own, o2, ip, team, s.own.laptops[ip].lastRobot.value);
  }

  /** ... and otherwise drives nothing, not even what it drove before, and
      stays held off the team's robots only. */
  lemma HeardGetsNothing(s: State, ip: Ip, team: Team)
    requires Inv(s) && !OneRobot(s.env.config, team) && !DrivesOfTeam(s.own, ip, team) && !LastIsFree(s.env, s.own, ip, team)
    ensures var o, o' := s.own, Next(s, HeardL(ip, Some(team))).own;
      && NowDrives(o, o', ip, None) && !Drives(o', ip)
      && forall r: Robot, x :: HeldOff(o', r, x) <==> HeldOff(o, r, x) && r in o'.sessions && (x == ip ==> TeamOf(r) == Some(team))
  {
    hide TeamOf, Heard, Offer, Claim, Ready, OneRobot, OnField, Taken, TouchEach, Current, Shown, RecOk;
    ReadyIs(s.env, s.own, ip, team);
    OfferIs(s.env, Ready(s.env, s.own, ip, team), ip, team);
  }

  ghost predicate ClaimNoted(e: Env, o: Own, robot: Robot, ip: Ip) {
    var o' := Claim(e, o, robot, ip).own;
    && OthersRecords(o, o', ip) && ip in o.laptops && ip in o'.laptops
    && o'.laptops[ip].(lastRobot := None) == o.laptops[ip].(lastRobot := None)
    && (forall r :: r in o'.sessions && o'.sessions[r] == ip ==> o'.laptops[ip].lastRobot == Some(r))
    && (!Drives(o', ip) ==> o'.laptops[ip].lastRobot == o.laptops[ip].lastRobot)
  }

  lemma ClaimNotes(e: Env, o: Own, robot: Robot, ip: Ip)
    requires Owned(o) && ip in o.laptops && !Drives(o, ip)
    ensures ClaimNoted(e, o, robot, ip)
  {
    hide Claim, Owned;
    if Taken(e, o, robot, ip) {
      ClaimRefused(e, o, robot, ip);
    } else {
      ClaimTakes(e, o, robot, ip);
      assert robot in Claim(e, o, robot, ip).own.sessions;
    }
  }

  lemma OfferNotes(e: Env, o: Own, ip: Ip, team: Team)
    requires Owned(o) && ConfigOk(e.config) && ip in o.laptops && !Drives(o, ip)
    ensures var o' := Offer(e, o, ip, team).own;
      && OthersRecords(o, o', ip) && ip in o'.laptops
      && o'.laptops[ip].(lastRobot := None) == o.laptops[ip].(lastRobot := None)
      && (forall r :: r in o'.sessions && o'.sessions[r] == ip ==> o'.laptops[ip].lastRobot == Some(r))
      && (!Drives(o', ip) ==> o'.laptops[ip].lastRobot == o.laptops[ip].lastRobot)
  {
    hide TeamOf, Offer, Claim, Owned, OfTeam, Taken;
    OfferIs(e, o, ip, team);
    if OneRobot(e.config, team) {
      var r :| OnlyRobot(e.config, team, r);
      ClaimNotes(e, o, r, ip);
    } else if LastIsFree(e, o, ip, team) {
      ClaimNotes(e, o, o.laptops[ip].lastRobot.value, ip);
    }
  }

  /** A handshake is noted: the laptop's team and the time, and the robot it
      drives now if it drove none of the team's before. */
  lemma HeardNotes(s: State, ip: Ip, team: Team)
    requires Inv(s)
    ensures var o, o' := s.own, Next(s, HeardL(ip, Some(team))).own;
      && OthersRecords(o, o', ip) && ip in o'.laptops
      && o'.laptops[ip].team == Some(team) && o'.laptops[ip].lastActivity == s.env.now
      && (forall r :: !DrivesOfTeam(o, ip, team) && r in o'.sessions && o'.sessions[r] == ip ==> o'.laptops[ip].lastRobot == Some(r))
      && ((DrivesOfTeam(o, ip, team) || !Drives(o', ip))
            ==> o'.laptops[ip].lastRobot == if ip in o.laptops then o.laptops[ip].lastRobot else None)
  {
    hide TeamOf, Place, Heard, Offer, Claim, Ready, Known, OnField, Taken, TouchEach, Current, Shown, RecOk;
    var e, o := s.env, s.own;
    if DrivesOfTeam(o, ip, team) {
      var r :| r in o.sessions && o.sessions[r] == ip && TeamOf(r) == Some(team);
      KnownIs(e, o, ip, team);
      PlaceStays(e, Known(e, o, ip, team), ip, team, r);
    } else {
      ReadyIs(e, o, ip, team);
      OfferNotes(e, Ready(e, o, ip, team), ip, team);
    }
  }

  // ── The Drive button ──────────────────────────────────────────────

  /** A press, whatever it asks for, proves the laptop alive. */
  lemma PressNoted(e: Env, o: Own, ip: Ip)
    requires Owned(o)
    ensures var o1 := Active(e, o, ip);
      && Owned(o1) && o1.sessions == o.sessions && o1.blocked == o.blocked && OthersRecords(o, o1, ip)
      && ip in o1.laptops && o1.laptops[ip] == Pressed(e, o, ip)
      && (forall r :: Taken(e, o1, r, ip) <==> Taken(e, o, r, ip))
  {
    OtherRecordsOwned(o, Active(e, o, ip).laptops);
  }

  function Pressed(e: Env, o: Own, ip: Ip): Laptop {
    if ip in o.laptops then o.laptops[ip].(lastActivity := e.now) else Laptop(None, e.now, None)
  }

  /** A press for a slot whose robot no other laptop actively drives. */
  lemma PressTakes(s: State, ip: Ip, station: Station)
    requires Inv(s) && station in s.env.config && !Taken(s.env, s.own, s.env.config[station], ip)
    ensures var o, o', robot := s.own, Next(s, DriveL(ip, Some(station))).own, s.env.config[station];
      && NowDrives(o, o', ip, Some(robot)) && NowHeldOff(o, o', ip, {})
      && OthersRecords(o, o', ip) && ip in o'.laptops
      && o'.laptops[ip] == if robot in o.sessions && o.sessions[robot] == ip then Pressed(s.env, o, ip)
                           else Pressed(s.env, o, ip).(lastRobot := Some(robot))
  {
    hide TeamOf, Claim, Active, OnField, TouchEach, Current, Shown, RecOk;
    PressNoted(s.env, s.own, ip);
    ClaimTakes(s.env, Active(s.env, s.own, ip), s.env.config[station], ip);
  }

  /** ... and for one whose robot another does: no session changes, and the
      laptop is held off that robot unless it drives another. */
  lemma PressRefused(s: State, ip: Ip, station: Station)
    requires Inv(s) && station in s.env.config && Taken(s.env, s.own, s.env.config[station], ip)
    ensures var o, o', robot := s.own, Next(s, DriveL(ip, Some(station))).own, s.env.config[station];
      && o'.sessions == o.sessions && OthersRecords(o, o', ip) && ip in o'.laptops && o'.laptops[ip] == Pressed(s.env, o, ip)
      && forall r, x :: HeldOff(o', r, x) <==> HeldOff(o, r, x) || (r == robot && x == ip && !Drives(o, ip))
  {
    hide TeamOf, Claim, Active, OnField, TouchEach, Current, Shown, RecOk;
    PressNoted(s.env, s.own, ip);
    ClaimRefused(s.env, Active(s.env, s.own, ip), s.env.config[station], ip);
  }

  /** ... and for a slot without a robot: nothing but the record changes. */
  lemma PressEmpty(s: State, ip: Ip, station: Station)
    requires Inv(s) && station !in s.env.config
    ensures var o, o' := s.own, Next(s, DriveL(ip, Some(station))).own;
      && o'.sessions == o.sessions && o'.blocked == o.blocked
      && OthersRecords(o, o', ip) && ip in o'.laptops && o'.laptops[ip] == Pressed(s.env, o, ip)
  {
  }

  /** A press to stop: the laptop drives nothing, is held off nothing, and the
      next handshake does not bring its robot back. */
  lemma PressStops(s: State, ip: Ip)
    requires Inv(s)
    ensures var o, o' := s.own, Next(s, DriveL(ip, None)).own;
      && NowDrives(o, o', ip, None) && NowHeldOff(o, o', ip, {})
      && OthersRecords(o, o', ip) && ip in o'.laptops && o'.laptops[ip] == Pressed(s.env, o, ip).(lastRobot := None)
  {
    hide TeamOf, StopDriving, Active, OnField, TouchEach, Current, Shown, RecOk;
    PressNoted(s.env, s.own, ip);
    StopIs(Active(s.env, s.own, ip), ip);
  }

  lemma StopIs(o: Own, ip: Ip)
    requires Owned(o) && ip in o.laptops
    ensures var o' := StopDriving(o, ip).own;
      && NowDrives(o, o', ip, None) && NowHeldOff(o, o', ip, {})
      && OthersRecords(o, o', ip) && ip in o'.laptops && o'.laptops[ip] == o.laptops[ip].(lastRobot := None)
  {
    hide LetGo, Drives, Owned, HeldOff, StopDriving, LiftBlocks, Lifted;
    LetGoIs(Env(map[], 0), o, ip);
    var forgot := Forget(LetGo(o, ip), ip);
    StopParts(o, ip);
    OtherRecordsOwned(LetGo(o, ip), forgot.laptops);
    LiftOwned(forgot, ip, forgot.blocked.Keys);
    SameBlocks(LetGo(o, ip), forgot);
  }

  lemma SameBlocks(o: Own, o': Own)
    requires o'.blocked == o.blocked
    ensures forall r, x :: HeldOff(o', r, x) <==> HeldOff(o, r, x)
    ensures forall r, x :: HeldOff(o, r, x) ==> r in o'.blocked.Keys
  {
  }

  lemma StopParts(o: Own, ip: Ip)
    requires ip in o.laptops
    ensures LetGo(o, ip).laptops == o.laptops
    ensures var forgot := Forget(LetGo(o, ip), ip); StopDriving(o, ip).own == LiftBlocks(forgot, ip, forgot.blocked.Keys).own
  {
  }

  // ── A closed connection, the sweep, a flush ───────────────────────

  /** A closed connection ends no session; it lifts the laptop's blocks on
      exactly the robots nobody is actively driving. */
  lemma ClosedLifts(s: State, ip: Ip)
    requires Inv(s)
    ensures var o, o' := s.own, Next(s, DisconnectedL(ip)).own;
      && o'.sessions == o.sessions && o'.laptops == o.laptops
      && forall r, x :: HeldOff(o', r, x)
                        <==> HeldOff(o, r, x) && (x == ip ==> r in o.sessions && Live(s.env, o, o.sessions[r]))
  {
    hide TeamOf, OnField, TouchEach, Current, Shown, RecOk;
    LiftOwned(s.own, ip, set r | r in s.own.blocked && Free(s.env, s.own, r));
  }

  /** The laptop drives a robot or is held off one. */
  ghost predicate InUse(o: Own, ip: Ip) { Drives(o, ip) || exists r :: HeldOff(o, r, ip) }

  /** The sweep ends exactly the sessions of laptops that went quiet, lifts the
      blocks on such laptops and on robots left without a driver, and forgets
      the laptops that have nothing left and were last heard ten minutes ago. */
  lemma SweepLeaves(s: State)
    requires Inv(s)
    ensures var o, o' := s.own, Next(s, SweepL).own;
      && (forall r :: r in o'.sessions <==> r in o.sessions && Live(s.env, o, o.sessions[r]))
      && (forall r :: r in o'.sessions ==> o'.sessions[r] == o.sessions[r])
      && (forall r, x :: HeldOff(o', r, x) <==> HeldOff(o, r, x) && r in o'.sessions && Live(s.env, o, x))
      && (forall x :: x in o'.laptops <==> x in o.laptops && (s.env.now - o.laptops[x].lastActivity < 600_000 || InUse(o', x)))
      && (forall x :: x in o'.laptops ==> o'.laptops[x] == o.laptops[x])
  {
    hide TeamOf, OnField, TouchEach, Current, Shown, RecOk, Owned;
    SweepOwned(s.env, s.own);
    SweptRecords(s.env, s.own);
  }

  lemma SweptRecords(e: Env, o: Own)
    ensures var o' := Sweep(e, o).own;
      && (forall x :: x in o'.laptops <==> x in o.laptops && (e.now - o.laptops[x].lastActivity < 600_000 || InUse(o', x)))
      && (forall x :: x in o'.laptops ==> o'.laptops[x] == o.laptops[x])
  {
    var lifted, o' := LetGoStale(e, o), Sweep(e, o).own;
    forall x ensures Drives(lifted, x) || IsBlocked(lifted, x) <==> InUse(o', x) {
      assert Drives(lifted, x) <==> Drives(o', x);
      if IsBlocked(lifted, x) {
        var r :| r in lifted.blocked && x in lifted.blocked[r];
        assert HeldOff(o', r, x);
      }
    }
  }

  /** The rules flushed from the kernel are forgotten, so that the pass asked
      for puts back what the sessions want; nothing else changes. */
  lemma FlushForgets(s: State)
    ensures var s' := Next(s, FlushL);
      && s'.own == s.own && s'.env == s.env && s'.shown == s.shown && s'.rec.routes == s.rec.routes
      && s'.rec.kernelDnat == multiset{} && s'.rec.kernelBlocks == multiset{}
      && s'.rec.installedDnat == map[] && s'.rec.installedBlocks == {} && s'.rec.routed == s.rec.routed
      && s'.rec.pass.Some? && (s.rec.pass.Some? ==> s'.rec.again)
  {
  }

  // ── A new config ──────────────────────────────────────────────────

  /** A laptop of the team that was heard lately and drives no robot on the field. */
  ghost predicate Awaits(e: Env, o: Own, team: Team, ip: Ip) {
    && ip in o.laptops && o.laptops[ip].team == Some(team) && Live(e, o, ip)
    && forall r :: r in o.sessions && o.sessions[r] == ip ==> !OnField(e.config, r)
  }

  /** Of the laptops that await a robot of the team none was heard later. */
  ghost predicate AwaitsLatest(e: Env, o: Own, team: Team, ip: Ip) {
    && Awaits(e, o, team, ip)
    && forall x :: Awaits(e, o, team, x) ==> o.laptops[x].lastActivity <= o.laptops[ip].lastActivity
  }

  /** The robot has no driver, is its team's only one, and a laptop awaits it. */
  ghost predicate Wanted(e: Env, o: Own, robot: Robot) {
    robot !in o.sessions && exists team, ip :: OnlyRobot(e.config, team, robot) && Awaits(e, o, team, ip)
  }

  ghost predicate SameButLast(o: Own, o': Own) {
    o'.laptops.Keys == o.laptops.Keys
    && forall x :: x in o.laptops ==> o'.laptops[x].team == o.laptops[x].team && o'.laptops[x].lastActivity == o.laptops[x].lastActivity
  }

  /** From `o`, where all drivers are on the field, to `o'`: wanted robots
      among `robots`, and no others, got the laptop heard last. */
  ghost predicate Arrived(e: Env, o: Own, o': Own, robots: set<Robot>) {
    && SameButLast(o, o')
    && (forall r :: r in o'.sessions <==> r in o.sessions || (r in robots && Wanted(e, o, r)))
    && (forall r :: r in o.sessions ==> o'.sessions[r] == o.sessions[r])
    && (forall r :: r in o'.sessions && r !in o.sessions ==> TeamOf(r).Some? && AwaitsLatest(e, o, TeamOf(r).value, o'.sessions[r]))
    && (forall r, x :: HeldOff(o', r, x) <==> HeldOff(o, r, x) && !Drives(o', x))
  }

  lemma NoneArrived(e: Env, o: Own)
    requires Owned(o)
    ensures Arrived(e, o, o, {})
  {
  }

  function RobotsOn(config: Config, slots: seq<Station>): set<Robot> {
    set st | st in slots && st in config :: config[st]
  }

  lemma AwaitsIs(e: Env, o: Own, team: Team, ip: Ip)
    requires AllOnField(e.config, o)
    ensures Awaits(e, o, team, ip) <==> Waiting(e, o, team, ip)
  {
    hide OnField;
  }

  /** A laptop awaits a robot of its team as before, whatever other teams'
      robots found a driver. */
  lemma StillAwaits(e: Env, o: Own, o1: Own, robots: set<Robot>, team: Team, robot: Robot, ip: Ip)
    requires Arrived(e, o, o1, robots) && AllOnField(e.config, o1)
    requires OnlyRobot(e.config, team, robot) && robot !in o1.sessions
    ensures Awaits(e, o1, team, ip) <==> Awaits(e, o, team, ip)
  {
    hide TeamOf, OnField, HeldOff;
    forall r | r in o1.sessions && r !in o.sessions ensures AwaitsLatest(e, o, TeamOf(r).value, o1.sessions[r]) && TeamOf(r) != Some(team) {
      assert OfTeam(e.config, team, r) ==> r == robot;
    }
  }

  lemma WantedIs(e: Env, o: Own, team: Team, robot: Robot)
    requires TeamOf(robot) == Some(team) && robot !in o.sessions
    ensures Wanted(e, o, robot) <==> OnlyRobot(e.config, team, robot) && exists ip :: Awaits(e, o, team, ip)
  {
    hide TeamOf, OnField;
    if Wanted(e, o, robot) {
      var t, ip :| OnlyRobot(e.config, t, robot) && Awaits(e, o, t, ip);
      assert OfTeam(e.config, t, robot);
    }
  }

  /** The only robot of its team, without a driver: it finds the laptop that
      was heard last, if any awaits it. */
  lemma ArriveFinds(e: Env, o: Own, o1: Own, robots: set<Robot>, station: Station, listed: seq<Ip>, team: Team)
    requires Owned(o1) && AllOnField(e.config, o) && AllOnField(e.config, o1) && ConfigOk(e.config)
    requires Arrived(e, o, o1, robots) && (forall x :: x in listed <==> x in o.laptops)
    requires station in e.config && e.config[station] !in o1.sessions && OnlyRobot(e.config, team, e.config[station])
    ensures Arrived(e, o, Arrive(e, o1, station, listed).own, robots + {e.config[station]})
  {
    hide TeamOf, OnField, OfTeam, RobotsOfTeam, Claim, NowDrives, NowHeldOff, OthersRecords, Live;
    var robot := e.config[station];
    assert OfTeam(e.config, team, robot);
    FoundIs(e, o, o1, robots, team, robot, listed);
    OneListed(e.config, team);
    WantedIs(e, o, team, robot);
    var ip := Freshest(e, o1, team, listed);
    if ip.Some? {
      ClaimTakes(e, o1, robot, ip.value);
      FoundArrives(e, o, o1, Claim(e, o1, robot, ip.value).own, robots, team, robot, ip.value);
    }
  }

  /** The search for the freshest laptop finds it. */
  lemma FoundIs(e: Env, o: Own, o1: Own, robots: set<Robot>, team: Team, robot: Robot, listed: seq<Ip>)
    requires AllOnField(e.config, o) && AllOnField(e.config, o1)
    requires Arrived(e, o, o1, robots) && (forall x :: x in listed <==> x in o.laptops)
    requires OnlyRobot(e.config, team, robot) && robot !in o1.sessions
    ensures var ip := Freshest(e, o1, team, listed);
      && (ip.Some? ==> AwaitsLatest(e, o, team, ip.value) && !Drives(o1, ip.value))
      && (ip.None? ==> forall x :: !Awaits(e, o, team, x))
  {
    hide TeamOf, OnField, OfTeam;
    forall x ensures Awaits(e, o, team, x) <==> Waiting(e, o1, team, x) {
      StillAwaits(e, o, o1, robots, team, robot, x);
      AwaitsIs(e, o1, team, x);
    }
  }

  lemma FoundArrives(e: Env, o: Own, o1: Own, o2: Own, robots: set<Robot>, team: Team, robot: Robot, ip: Ip)
    requires Arrived(e, o, o1, robots) && robot !in o1.sessions && TeamOf(robot) == Some(team)
    requires OnlyRobot(e.config, team, robot) && AwaitsLatest(e, o, team, ip) && !Drives(o1, ip)
    requires NowDrives(o1, o2, ip, Some(robot)) && NowHeldOff(o1, o2, ip, {}) && OthersRecords(o1, o2, ip)
    requires ip in o1.laptops && ip in o2.laptops && o2.laptops[ip] == o1.laptops[ip].(lastRobot := Some(robot))
    requires forall r, x :: HeldOff(o1, r, x) ==> r in o1.sessions
    ensures Arrived(e, o, o2, robots + {robot})
  {
    hide TeamOf, OnField, OfTeam, Live;
    WantedIs(e, o, team, robot);
    assert Wanted(e, o, robot);
    forall x ensures x in o2.laptops <==> x in o1.laptops {
      assert x in o2.laptops.Keys - {ip} <==> x in o1.laptops.Keys - {ip};
    }
    forall x ensures Drives(o2, x) <==> x == ip || Drives(o1, x) {
      if x == ip { assert robot in o2.sessions; }
      if Drives(o1, x) && x != ip {
        var r :| r in o1.sessions && o1.sessions[r] == x;
        assert r in o2.sessions;
      }
    }
    forall r, x ensures HeldOff(o2, r, x) <==> HeldOff(o, r, x) && !Drives(o2, x) {
      assert HeldOff(o1, r, x) ==> r in o1.sessions && r in o2.sessions;
    }
    forall r ensures r in o2.sessions <==> r in o.sessions || (r in robots + {robot} && Wanted(e, o, r)) {}
    forall r | r in o2.sessions && r !in o.sessions ensures TeamOf(r).Some? && AwaitsLatest(e, o, TeamOf(r).value, o2.sessions[r]) {}
  }

  lemma ArriveIs(e: Env, o: Own, o1: Own, robots: set<Robot>, station: Station, listed: seq<Ip>)
    requires Owned(o1) && AllOnField(e.config, o) && AllOnField(e.config, o1) && ConfigOk(e.config)
    requires Arrived(e, o, o1, robots) && (forall x :: x in listed <==> x in o.laptops)
    ensures Arrived(e, o, Arrive(e, o1, station, listed).own, robots + RobotsOn(e.config, [station]))
  {
    hide TeamOf, OnField, OfTeam, RobotsOfTeam, Owned;
    if station in e.config {
      var robot := e.config[station];
      assert RobotsOn(e.config, [station]) == {robot};
      if robot in o1.sessions {
      } else if TeamOf(robot).Some? && OnlyRobot(e.config, TeamOf(robot).value, robot) {
        ArriveFinds(e, o, o1, robots, station, listed, TeamOf(robot).value);
      } else {
        NotArrives(e, o, o1, station, listed);
      }
    } else {
      assert RobotsOn(e.config, [station]) == {};
      assert robots + {} == robots;
    }
  }

  lemma NotArrives(e: Env, o: Own, o1: Own, station: Station, listed: seq<Ip>)
    requires ConfigOk(e.config) && station in e.config
    requires TeamOf(e.config[station]).Some? ==> !OnlyRobot(e.config, TeamOf(e.config[station]).value, e.config[station])
    ensures Arrive(e, o1, station, listed).own == o1 && !Wanted(e, o, e.config[station])
  {
    hide TeamOf, RobotsOfTeam, Awaits;
    var robot := e.config[station];
    if TeamOf(robot).Some? {
      OneListed(e.config, TeamOf(robot).value);
      forall r ensures !OnlyRobot(e.config, TeamOf(robot).value, r) {
        assert OfTeam(e.config, TeamOf(robot).value, robot);
      }
    }
  }

  lemma {:induction false} ArrivalsAre(e: Env, o: Own, slots: seq<Station>, listed: seq<Ip>)
    requires Owned(o) && AllOnField(e.config, o) && ConfigOk(e.config) && (forall x :: x in listed <==> x in o.laptops)
    ensures Arrived(e, o, Arrivals(e, o, slots, listed).own, RobotsOn(e.config, slots))
  {
    hide TeamOf, OnField, OfTeam, Owned, Arrive, Wanted, Arrived;
    if slots == [] {
      NoneArrived(e, o);
      assert RobotsOn(e.config, slots) == {};
    } else {
      var front, last := slots[..|slots| - 1], slots[|slots| - 1];
      ArrivalsAre(e, o, front, listed);
      ArrivalsOwned(e, o, front, listed);
      ArriveIs(e, o, Arrivals(e, o, front, listed).own, RobotsOn(e.config, front), last, listed);
      assert slots == front + [last];
      assert RobotsOn(e.config, slots) == RobotsOn(e.config, front) + RobotsOn(e.config, [last]);
    }
  }

  /** From `o` to `o'` under the config of `e`: the drivers of robots on the
      field stay and the others do not; a robot without a driver that is its
      team's only one gets a laptop exactly if one awaits it, and then the one
      heard last; and the blocks left are those on robots of the field of
      laptops that drive nothing. */
  ghost predicate Reconfigured(e: Env, o: Own, o': Own) {
    && SameButLast(o, o')
    && (forall r :: r in o'.sessions <==> (r in o.sessions && OnField(e.config, r)) || Wanted(e, o, r))
    && (forall r :: r in o'.sessions && r in o.sessions ==> o'.sessions[r] == o.sessions[r])
    && (forall r :: r in o'.sessions && r !in o.sessions ==> TeamOf(r).Some? && AwaitsLatest(e, o, TeamOf(r).value, o'.sessions[r]))
    && (forall r, x :: HeldOff(o', r, x) <==> HeldOff(o, r, x) && OnField(e.config, r) && !Drives(o', x))
  }

  lemma DepartedAwait(e: Env, o: Own, o1: Own)
    requires o1.laptops == o.laptops
    requires forall r :: r in o1.sessions <==> r in o.sessions && OnField(e.config, r)
    requires forall r :: r in o1.sessions ==> o1.sessions[r] == o.sessions[r]
    ensures forall team, ip :: Awaits(e, o1, team, ip) <==> Awaits(e, o, team, ip)
    ensures forall team, ip :: AwaitsLatest(e, o1, team, ip) <==> AwaitsLatest(e, o, team, ip)
    ensures forall r :: OnField(e.config, r) ==> (Wanted(e, o1, r) <==> Wanted(e, o, r))
  {
    hide OnField, OnlyRobot;
    forall team, ip ensures Awaits(e, o1, team, ip) <==> Awaits(e, o, team, ip) {}
  }

  lemma WantedOnField(e: Env, o: Own, robot: Robot)
    requires Wanted(e, o, robot)
    ensures OnField(e.config, robot) && robot in RobotsOn(e.config, STATIONS) && TeamOf(robot).Some?
  {
    hide TeamOf;
    var team, ip :| OnlyRobot(e.config, team, robot) && Awaits(e, o, team, ip);
    var st :| st in e.config && e.config[st] == robot;
    EveryStationListed(st);
  }

  lemma DepartedBlocks(e: Env, o: Own, gone: seq<Robot>)
    requires Owned(o) && Elements(gone) == Gone(e, o)
    ensures forall r, x :: HeldOff(DropOffField(e, EndEach(o, gone).own), r, x) <==> HeldOff(o, r, x) && OnField(e.config, r)
  {
    hide OnField;
    EndEachIs(o, gone);
    forall r ensures r in Gone(e, o) <==> r in o.sessions && !OnField(e.config, r) {}
  }

  lemma ReconfiguredIs(e: Env, o: Own, o1: Own, o2: Own)
    requires o1.laptops == o.laptops && AllOnField(e.config, o1)
    requires forall r :: r in o1.sessions <==> r in o.sessions && OnField(e.config, r)
    requires forall r :: r in o1.sessions ==> o1.sessions[r] == o.sessions[r]
    requires forall r, x :: HeldOff(o1, r, x) <==> HeldOff(o, r, x) && OnField(e.config, r)
    requires Arrived(e, o1, o2, RobotsOn(e.config, STATIONS))
    ensures Reconfigured(e, o, o2)
  {
    hide OnField, Wanted, TeamOf, AwaitsLatest, HeldOff, RobotsOn;
    DepartedAwait(e, o, o1);
    forall r: Robot | Wanted(e, o, r) || Wanted(e, o1, r) ensures OnField(e.config, r) && r in RobotsOn(e.config, STATIONS) && TeamOf(r).Some? {
      if Wanted(e, o, r) { WantedOnField(e, o, r); } else { WantedOnField(e, o1, r); }
    }
  }

  /** What a new config does to who drives what. */
  lemma ConfigArrivals(s: State, config: Config, gone: seq<Robot>, listed: seq<Ip>)
    requires Inv(s) && Possible(s, ConfigL(config, gone, listed))
    ensures Reconfigured(s.env.(config := config), s.own, Next(s, ConfigL(config, gone, listed)).own)
  {
    hide TeamOf, OnField, TouchEach, Current, Shown, RecOk, Arrivals, Reconfigured, Arrived, DropOffField, EndEach;
    var e := s.env.(config := config);
    var o1 := DropOffField(e, EndEach(s.own, gone).own);
    DepartedOwned(e, s.own, gone);
    DepartedBlocks(e, s.own, gone);
    forall x ensures x in listed <==> x in o1.laptops {
      assert x in (set ip | ip in listed) <==> x in listed;
    }
    ArrivalsAre(e, o1, STATIONS, listed);
    ReconfiguredIs(e, s.own, o1, Arrivals(e, o1, STATIONS, listed).own);
  }

  // ── The kernel and the restart ────────────────────────────────────

  /** `ip` drives the robot of `team` that is on the slot. */
  predicate DrivesOn(s: State, station: Station, team: Team, ip: Ip) {
    && station in s.env.config && TeamOf(s.env.config[station]) == Some(team)
    && s.env.config[station] in s.own.sessions && s.own.sessions[s.env.config[station]] == ip
  }

  ghost predicate HeldOffOn(s: State, station: Station, ip: Ip) {
    station in s.env.config && HeldOff(s.own, s.env.config[station], ip)
  }

  /** Whenever no pass is under way and the last one met no failure: a slot's
      ports lead to a laptop exactly if it drives the robot now on that slot,
      a laptop is blocked on a slot, and once, exactly if it is held off the
      robot there, and a driving laptop is routed to its slot unless somebody
      else moved its route. */
  lemma KernelFollowsDrivers(states: seq<State>, labels: seq<Label>, i: nat)
    requires Run(states, labels) && Inv(states[0]) && i < |states|
    requires states[i].rec.pass.None? && states[i].rec.servedOk
    ensures var s := states[i];
      && (forall st, team, ip :: s.rec.kernelDnat[DnatRule(st, team, ip)] > 0 <==> DrivesOn(s, st, team, ip))
      && (forall st, ip :: s.rec.kernelBlocks[BlockRule(st, ip)] == if HeldOffOn(s, st, ip) then 1 else 0)
      && (forall st, team, ip :: DrivesOn(s, st, team, ip) && ip !in s.rec.disturbed ==> ip in s.rec.routes && s.rec.routes[ip] == st)
  {
    hide TeamOf, Inv;
    RunConverges(states, labels, i);
    var s := states[i];
    DemandIs(s);
    forall st, team, ip | DrivesOn(s, st, team, ip) && ip !in s.rec.disturbed ensures ip in s.rec.routes && s.rec.routes[ip] == st {
      assert DnatRule(st, team, ip) in Demand(s.env.config, s.own).dnat;
    }
  }

  lemma DemandIs(s: State)
    ensures forall st, team, ip :: DnatRule(st, team, ip) in Demand(s.env.config, s.own).dnat <==> DrivesOn(s, st, team, ip)
    ensures forall st, ip :: BlockRule(st, ip) in Demand(s.env.config, s.own).blocks <==> HeldOffOn(s, st, ip)
  {
    hide TeamOf;
  }

  /** A laptop whose rule was taken up counts as heard at the restart. */
  lemma {:induction false} RestoredLive(e: Env, dnat: seq<DnatRule>)
    ensures var o := AdoptAll(e, NOBODY, dnat);
      forall r :: r in o.sessions ==> o.sessions[r] in o.laptops && o.laptops[o.sessions[r]].lastActivity == e.now
  {
    if dnat != [] {
      RestoredLive(e, dnat[..|dnat| - 1]);
      assert AdoptAll(e, NOBODY, dnat) == Adopt(e, AdoptAll(e, NOBODY, dnat[..|dnat| - 1]), dnat[|dnat| - 1]);
    }
  }

  // ── Teams ─────────────────────────────────────────────────────────

  lemma {:induction false} DigitsParse(text: string, seen: nat)
    ensures Digits(text, seen) == OnLink.Parse(text, 10, seen)
  {
    if text != "" && IsDigit(text[0]) { DigitsParse(text[1..], 10 * seen + (text[0] as int - '0' as int)); }
  }

  lemma {:induction false} BeforeDashOf(text: string, rest: string)
    requires '-' !in text && (rest == "" || rest[0] == '-')
    ensures BeforeDash(text + rest) == text
  {
    if text != "" {
      BeforeDashOf(text[1..], rest);
      assert (text + rest)[1..] == text[1..] + rest;
    }
  }

  /** "1967" and "1967-Elsa" are robots of team 1967, and so for every number
      and whatever follows the dash. */
  lemma TeamReads(team: Team, rest: string)
    requires rest == "" || rest[0] == '-'
    ensures TeamOf(OnLink.Spell(team, 10) + rest) == Some(team)
  {
    var text := OnLink.Spell(team, 10);
    OnLink.SpellingParses(team, 10);
    BeforeDashOf(text, rest);
    DigitsParse(text, 0);
    assert OnLink.IsDigitOf(text[0], 10);
  }
}
