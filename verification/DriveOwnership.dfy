/** Who may drive which robot: the ownership rules every input keeps, and the
    promises made to a laptop that is driving. */
module DriveOwnership {
  import opened Field
  import opened DriveState

  /** Each laptop drives at most one robot. */
  ghost predicate OneEach(sessions: map<Robot, Ip>) {
    forall a, b :: a in sessions && b in sessions && sessions[a] == sessions[b] ==> a == b
  }

  ghost predicate HeldOff(o: Own, robot: Robot, ip: Ip) { robot in o.blocked && ip in o.blocked[robot] }

  /** Each laptop drives at most one robot, a driving laptop is held off no
      robot, a robot with laptops held off it has a driver, and every laptop
      named here has a record. */
  ghost predicate Owned(o: Own) {
    && OneEach(o.sessions)
    && (forall r :: r in o.sessions ==> o.sessions[r] in o.laptops)
    && (forall r :: r in o.blocked ==> r in o.sessions && o.blocked[r] != {})
    && (forall r, ip :: HeldOff(o, r, ip) ==> ip in o.laptops && !Drives(o, ip))
  }

  ghost predicate AllOnField(config: Config, o: Own) {
    forall r :: r in o.sessions ==> OnField(config, r)
  }

  /** From `o` to `o'` no active driver but `actor` loses a robot that is still
      on the field, and no other laptop grows stale. */
  ghost predicate Keeps(e: Env, o: Own, o': Own, actor: Option<Ip>) {
    && (forall r :: r in o.sessions && !Stale(e, o, o.sessions[r]) && Some(o.sessions[r]) != actor && OnField(e.config, r)
          ==> r in o'.sessions && o'.sessions[r] == o.sessions[r])
    && (forall ip :: !Stale(e, o, ip) ==> !Stale(e, o', ip))
  }

  lemma KeepsThen(e: Env, o: Own, o1: Own, o2: Own, actor: Option<Ip>)
    requires Keeps(e, o, o1, actor) && Keeps(e, o1, o2, actor)
    ensures Keeps(e, o, o2, actor)
  {
  }

  /** With no session added or changed, no laptop becomes a driver. */
  lemma FewerDrivers(o: Own, o': Own)
    requires forall r :: r in o'.sessions ==> r in o.sessions && o.sessions[r] == o'.sessions[r]
    ensures forall ip :: Drives(o', ip) ==> Drives(o, ip)
  {
  }

  // ── The parts ─────────────────────────────────────────────────────

  lemma WithoutOwned(o: Own, robots: set<Robot>)
    requires Owned(o)
    ensures Owned(Without(o, robots))
  {
    FewerDrivers(o, Without(o, robots));
    forall r, ip | HeldOff(Without(o, robots), r, ip) ensures HeldOff(o, r, ip) {}
  }

  lemma LiftOwned(o: Own, ip: Ip, which: set<Robot>)
    requires Owned(o)
    ensures Owned(LiftBlocks(o, ip, which).own)
    ensures LiftBlocks(o, ip, which).own.sessions == o.sessions && LiftBlocks(o, ip, which).own.laptops == o.laptops
    ensures forall r, other :: HeldOff(LiftBlocks(o, ip, which).own, r, other)
                               <==> HeldOff(o, r, other) && !(other == ip && r in which)
  {
    var o' := LiftBlocks(o, ip, which).own;
    FewerDrivers(o, o');
    forall r, other | HeldOff(o', r, other) ensures HeldOff(o, r, other) {}
  }

  lemma TakeOwned(o: Own, robot: Robot, ip: Ip)
    requires Owned(o) && ip in o.laptops && !Drives(o, ip)
    ensures Owned(Take(o, robot, ip))
  {
    var o' := Take(o, robot, ip);
    forall r | r in o'.sessions && r != robot ensures o'.sessions[r] != ip {
      assert r in o.sessions && o.sessions[r] == o'.sessions[r];
    }
    forall other | other != ip && Drives(o', other) ensures Drives(o, other) {
      var r :| r in o'.sessions && o'.sessions[r] == other;
      assert o.sessions[r] == other;
    }
    forall r, other | HeldOff(o', r, other) ensures HeldOff(o, r, other) && other != ip {}
  }

  lemma LetGoOwned(o: Own, ip: Ip)
    requires Owned(o)
    ensures Owned(LetGo(o, ip)) && !Drives(LetGo(o, ip), ip)
    ensures LetGo(o, ip).laptops == o.laptops
    ensures forall r :: r in LetGo(o, ip).sessions <==> r in o.sessions && o.sessions[r] != ip
    ensures forall r :: r in LetGo(o, ip).sessions ==> LetGo(o, ip).sessions[r] == o.sessions[r]
  {
    var previous := DrivenBy(o, ip);
    if previous.Some? { WithoutOwned(o, {previous.value}); }
  }

  lemma ClaimGranted(e: Env, o: Own, robot: Robot, ip: Ip)
    requires Owned(o) && ip in o.laptops && !Refused(e, o, robot, ip) && !(robot in o.sessions && o.sessions[robot] == ip)
    ensures var o' := Take(LetGo(o, ip), robot, ip);
      && Owned(o') && o'.laptops.Keys == o.laptops.Keys
      && robot in o'.sessions && o'.sessions[robot] == ip
      && (forall r :: r in o.sessions && o.sessions[r] != ip && r != robot ==> r in o'.sessions && o'.sessions[r] == o.sessions[r])
      && (forall r :: r in o'.sessions ==> r == robot || (r in o.sessions && o'.sessions[r] == o.sessions[r]))
      && Keeps(e, o, o', Some(ip))
  {
    LetGoOwned(o, ip);
    TakeOwned(LetGo(o, ip), robot, ip);
  }

  lemma ClaimHeldOff(o: Own, robot: Robot, ip: Ip)
    requires Owned(o) && ip in o.laptops && robot in o.sessions && !Drives(o, ip)
    ensures Owned(o.(blocked := o.blocked[robot := BlockedOn(o, robot) + {ip}]))
  {
    var o' := o.(blocked := o.blocked[robot := BlockedOn(o, robot) + {ip}]);
    FewerDrivers(o, o');
    forall r, other | HeldOff(o', r, other) ensures HeldOff(o, r, other) || other == ip {}
  }

  /** A claim is refused exactly when another laptop is actively driving the
      robot; then no session changes. Otherwise the claimant drives it, and
      the only sessions that end are its own and the stale one it replaces. */
  lemma ClaimOwned(e: Env, o: Own, robot: Robot, ip: Ip)
    requires Owned(o) && ip in o.laptops
    ensures var o' := Claim(e, o, robot, ip).own;
      && Owned(o')
      && o'.laptops.Keys == o.laptops.Keys
      && (Refused(e, o, robot, ip) ==> o'.sessions == o.sessions)
      && (!Refused(e, o, robot, ip) ==> robot in o'.sessions && o'.sessions[robot] == ip)
      && (forall r :: r in o.sessions && o.sessions[r] != ip && r != robot ==> r in o'.sessions && o'.sessions[r] == o.sessions[r])
      && (forall r :: r in o'.sessions ==> r == robot || (r in o.sessions && o'.sessions[r] == o.sessions[r]))
      && Keeps(e, o, o', Some(ip))
  {
    if robot in o.sessions && o.sessions[robot] == ip {
    } else if !Refused(e, o, robot, ip) {
      ClaimGranted(e, o, robot, ip);
    } else if !Drives(o, ip) {
      ClaimHeldOff(o, robot, ip);
    }
  }

  /** Duplicate laptop on a slot: the test the FMS handshake applies. */
  predicate IsDuplicateOn(e: Env, o: Own, station: Station, ip: Ip) {
    station in e.config && e.config[station] in o.sessions && o.sessions[e.config[station]] != ip
    && !Stale(e, o, o.sessions[e.config[station]])
  }

  /** The handshake's duplicate test foretells exactly what a claim does. */
  lemma DuplicateTestAgrees(e: Env, o: Own, station: Station, ip: Ip)
    requires Owned(o) && ip in o.laptops && station in e.config
    ensures IsDuplicateOn(e, o, station, ip)
            <==> !(e.config[station] in Claim(e, o, e.config[station], ip).own.sessions
                   && Claim(e, o, e.config[station], ip).own.sessions[e.config[station]] == ip)
  {
  }

  // ── The inputs ────────────────────────────────────────────────────

  lemma OtherRecordsOwned(o: Own, laptops: map<Ip, Laptop>)
    requires Owned(o) && o.laptops.Keys <= laptops.Keys
    ensures Owned(o.(laptops := laptops))
  {
    FewerDrivers(o, o.(laptops := laptops));
    forall r, ip | HeldOff(o.(laptops := laptops), r, ip) ensures HeldOff(o, r, ip) {}
  }

  lemma OfferOwned(e: Env, o: Own, ip: Ip, team: Team)
    requires Owned(o) && AllOnField(e.config, o) && ip in o.laptops
    ensures Owned(Offer(e, o, ip, team).own) && AllOnField(e.config, Offer(e, o, ip, team).own)
    ensures Keeps(e, o, Offer(e, o, ip, team).own, Some(ip))
  {
    var robots := RobotsOfTeam(e.config, team, STATIONS);
    var last := o.laptops[ip].lastRobot;
    if |robots| == 1 {
      assert robots[0] in robots;
      ClaimOwned(e, o, robots[0], ip);
    } else if last.Some? && last.value in robots {
      ClaimOwned(e, o, last.value, ip);
    }
  }

  lemma PlaceOwned(e: Env, o: Own, ip: Ip, team: Team)
    requires Owned(o) && AllOnField(e.config, o) && ip in o.laptops
    ensures Owned(Place(e, o, ip, team).own) && AllOnField(e.config, Place(e, o, ip, team).own)
    ensures Keeps(e, o, Place(e, o, ip, team).own, Some(ip))
  {
    hide TeamOf, OnField;
    var driving := DrivenBy(o, ip);
    if driving.None? {
      OfferOwned(e, o, ip, team);
    } else if TeamOf(driving.value) != Some(team) {
      WithoutOwned(o, {driving.value});
      var ended := Without(o, {driving.value});
      OfferOwned(e, ended, ip, team);
      assert Keeps(e, o, ended, Some(ip));
      KeepsThen(e, o, ended, Offer(e, ended, ip, team).own, Some(ip));
    }
  }

  lemma HeardOwned(e: Env, o: Own, ip: Ip, team: Option<Team>)
    requires Owned(o) && AllOnField(e.config, o)
    ensures Owned(Heard(e, o, ip, team).own) && AllOnField(e.config, Heard(e, o, ip, team).own)
    ensures Keeps(e, o, Heard(e, o, ip, team).own, Some(ip))
  {
    var o1 := Hear(e, o, ip, team);
    OtherRecordsOwned(o, o1.laptops);
    if team.Some? {
      LiftOwned(o1, ip, OtherTeams(o1, team.value));
      var o2 := LiftBlocks(o1, ip, OtherTeams(o1, team.value)).own;
      assert Keeps(e, o, o2, Some(ip));
      PlaceOwned(e, o2, ip, team.value);
      KeepsThen(e, o, o2, Place(e, o2, ip, team.value).own, Some(ip));
    }
  }

  lemma StopDrivingOwned(e: Env, o: Own, ip: Ip)
    requires Owned(o) && ip in o.laptops
    ensures Keeps(e, o, StopDriving(o, ip).own, Some(ip))
    ensures Owned(StopDriving(o, ip).own)
    ensures forall r :: r in StopDriving(o, ip).own.sessions <==> r in o.sessions && o.sessions[r] != ip
    ensures forall r :: r in StopDriving(o, ip).own.sessions ==> StopDriving(o, ip).own.sessions[r] == o.sessions[r]
  {
    var driving := DrivenBy(o, ip);
    var ended := if driving.Some? then EndSession(o, driving.value).own else o;
    if driving.Some? { WithoutOwned(o, {driving.value}); }
    OtherRecordsOwned(ended, Forget(ended, ip).laptops);
    LiftOwned(Forget(ended, ip), ip, ended.blocked.Keys);
  }

  lemma DriveOwned(e: Env, o: Own, ip: Ip, station: Option<Station>)
    requires Owned(o) && AllOnField(e.config, o)
    ensures Owned(Drive(e, o, ip, station).own) && AllOnField(e.config, Drive(e, o, ip, station).own)
    ensures Keeps(e, o, Drive(e, o, ip, station).own, Some(ip))
  {
    var o1 := Active(e, o, ip);
    OtherRecordsOwned(o, o1.laptops);
    assert Keeps(e, o, o1, Some(ip));
    KeepsThen(e, o, o1, Drive(e, o, ip, station).own, Some(ip)) by {
      if station.None? {
        StopDrivingOwned(e, o1, ip);
      } else if station.value in e.config {
        ClaimOwned(e, o1, e.config[station.value], ip);
      }
    }
    if station.None? {
      StopDrivingOwned(e, o1, ip);
    } else if station.value in e.config {
      assert OnField(e.config, e.config[station.value]);
      ClaimOwned(e, o1, e.config[station.value], ip);
    }
  }

  function Elements(robots: seq<Robot>): set<Robot> { set r | r in robots }

  lemma WithoutMore(o: Own, robots: seq<Robot>)
    requires robots != [] && forall r :: r in o.blocked ==> r in o.sessions
    ensures EndSession(Without(o, Elements(robots[..|robots| - 1])), robots[|robots| - 1]).own == Without(o, Elements(robots))
  {
  }

  lemma {:induction false} EndEachIs(o: Own, robots: seq<Robot>)
    requires forall r :: r in o.blocked ==> r in o.sessions
    ensures EndEach(o, robots).own == Without(o, Elements(robots))
  {
    if robots == [] {
      assert Without(o, Elements(robots)) == o;
    } else {
      EndEachIs(o, robots[..|robots| - 1]);
      WithoutMore(o, robots);
    }
  }

  lemma EndEachOwned(o: Own, robots: seq<Robot>)
    requires Owned(o)
    ensures EndEach(o, robots).own == Without(o, Elements(robots)) && Owned(EndEach(o, robots).own)
  {
    EndEachIs(o, robots);
    WithoutOwned(o, Elements(robots));
  }

  lemma ClaimUndriven(e: Env, o: Own, robot: Robot, ip: Ip)
    requires Owned(o) && AllOnField(e.config, o) && OnField(e.config, robot)
    requires robot !in o.sessions && ip in o.laptops && !Drives(o, ip)
    ensures var o' := Claim(e, o, robot, ip).own;
      && Owned(o') && AllOnField(e.config, o')
      && (forall r :: r in o.sessions ==> r in o'.sessions && o'.sessions[r] == o.sessions[r])
      && Keeps(e, o, o', None)
  {
    ClaimOwned(e, o, robot, ip);
    assert forall r :: r in o.sessions ==> o.sessions[r] != ip;
  }

  lemma ArriveOwned(e: Env, o: Own, station: Station, listed: seq<Ip>)
    requires Owned(o) && AllOnField(e.config, o)
    ensures var o' := Arrive(e, o, station, listed).own;
      && Owned(o') && AllOnField(e.config, o')
      && (forall r :: r in o.sessions ==> r in o'.sessions && o'.sessions[r] == o.sessions[r])
      && Keeps(e, o, o', None)
  {
    if station in e.config && e.config[station] !in o.sessions {
      var robot := e.config[station];
      assert OnField(e.config, robot);
      var team := TeamOf(robot);
      if team.Some? {
        var ip := Freshest(e, o, team.value, listed);
        if ip.Some? {
          assert Waiting(e, o, team.value, ip.value);
          ClaimUndriven(e, o, robot, ip.value);
        }
      }
    }
  }

  lemma {:induction false} ArrivalsOwned(e: Env, o: Own, slots: seq<Station>, listed: seq<Ip>)
    requires Owned(o) && AllOnField(e.config, o)
    ensures var o' := Arrivals(e, o, slots, listed).own;
      && Owned(o') && AllOnField(e.config, o')
      && (forall r :: r in o.sessions ==> r in o'.sessions && o'.sessions[r] == o.sessions[r])
      && Keeps(e, o, o', None)
  {
    if slots != [] {
      ArrivalsOwned(e, o, slots[..|slots| - 1], listed);
      ArriveOwned(e, Arrivals(e, o, slots[..|slots| - 1], listed).own, slots[|slots| - 1], listed);
    }
  }

  lemma DepartedOwned(e: Env, o: Own, gone: seq<Robot>)
    requires Owned(o) && Elements(gone) == Gone(e, o)
    ensures var o' := DropOffField(e, EndEach(o, gone).own);
      && Owned(o') && AllOnField(e.config, o') && o'.laptops == o.laptops
      && (forall r :: r in o'.sessions <==> r in o.sessions && OnField(e.config, r))
      && (forall r :: r in o'.sessions ==> o'.sessions[r] == o.sessions[r])
  {
    EndEachIs(o, gone);
    var o1 := EndEach(o, gone).own;
    WithoutOwned(o, Elements(gone));
    var o2 := DropOffField(e, o1);
    FewerDrivers(o1, o2);
    forall r, ip | HeldOff(o2, r, ip) ensures HeldOff(o1, r, ip) {}
    forall r ensures r in o2.sessions <==> r in o.sessions && OnField(e.config, r) {
      assert r in o2.sessions <==> r in o.sessions && r !in Gone(e, o);
    }
  }

  /** Under a new config every robot still on the field keeps its driver, and
      robots that left lose theirs. */
  lemma ConfigChangedOwned(e: Env, o: Own, gone: seq<Robot>, listed: seq<Ip>)
    requires Owned(o) && Elements(gone) == Gone(e, o)
    ensures var o' := ConfigChanged(e, o, gone, listed).own;
      && Owned(o') && AllOnField(e.config, o')
      && (forall r :: r in o.sessions && OnField(e.config, r) ==> r in o'.sessions && o'.sessions[r] == o.sessions[r])
      && Keeps(e, o, o', None)
  {
    DepartedOwned(e, o, gone);
    ArrivalsOwned(e, DropOffField(e, EndEach(o, gone).own), STATIONS, listed);
  }

  lemma DisconnectedOwned(e: Env, o: Own, ip: Ip)
    requires Owned(o)
    ensures Owned(Disconnected(e, o, ip).own) && Disconnected(e, o, ip).own.sessions == o.sessions
    ensures Keeps(e, o, Disconnected(e, o, ip).own, None)
  {
    hide OnField;
    LiftOwned(o, ip, set r | r in o.blocked && Free(e, o, r));
  }

  lemma LiveBlocks(e: Env, o: Own)
    ensures forall r, ip :: HeldOff(o.(blocked := Prune(WithoutStale(e, o))), r, ip) <==> HeldOff(o, r, ip) && !Stale(e, o, ip)
  {
    var live := WithoutStale(e, o);
    var o' := o.(blocked := Prune(live));
    forall r, ip ensures HeldOff(o', r, ip) <==> HeldOff(o, r, ip) && !Stale(e, o, ip) {
      if r in o.blocked {
        assert ip in live[r] <==> ip in o.blocked[r] && !Stale(e, o, ip);
        if ip in live[r] { assert live[r] != {}; }
      }
    }
  }

  lemma LetGoStaleOwned(e: Env, o: Own)
    requires Owned(o)
    ensures Owned(LetGoStale(e, o))
    ensures forall r, ip :: HeldOff(LetGoStale(e, o), r, ip)
                            <==> HeldOff(o, r, ip) && r in LetGoStale(e, o).sessions && !Stale(e, o, ip)
  {
    var ended := Without(o, StaleRobots(e, o));
    WithoutOwned(o, StaleRobots(e, o));
    FewerDrivers(ended, LetGoStale(e, o));
    LiveBlocks(e, ended);
    forall r, ip ensures HeldOff(ended, r, ip) <==> HeldOff(o, r, ip) && r in ended.sessions {}
  }

  /** After a sweep no session and no block belongs to a stale laptop, and no
      session of another laptop has ended. */
  lemma SweepOwned(e: Env, o: Own)
    requires Owned(o)
    ensures var o' := Sweep(e, o).own;
      && Owned(o')
      && o'.sessions == o.sessions - StaleRobots(e, o)
      && (forall r :: r in o'.sessions ==> !Stale(e, o', o'.sessions[r]))
      && (forall r, ip :: HeldOff(o', r, ip) <==> HeldOff(o, r, ip) && r in o'.sessions && !Stale(e, o, ip))
      && (forall r, ip :: HeldOff(o', r, ip) ==> !Stale(e, o', ip))
      && Keeps(e, o, o', None)
  {
    var lifted := LetGoStale(e, o);
    LetGoStaleOwned(e, o);
    ForgetIdleOwned(e, lifted);
    var o' := Sweep(e, o).own;
    forall r | r in o'.sessions ensures !Stale(e, o', o'.sessions[r]) {
      assert Drives(lifted, lifted.sessions[r]);
      assert !Stale(e, lifted, lifted.sessions[r]);
    }
    forall r, ip ensures HeldOff(o', r, ip) <==> HeldOff(lifted, r, ip) {}
    forall r, ip | HeldOff(o', r, ip) ensures !Stale(e, o', ip) {
      assert ip in lifted.blocked[r];
      assert IsBlocked(lifted, ip);
      assert HeldOff(lifted, r, ip);
      assert !Stale(e, lifted, ip);
    }
  }

  lemma ForgetIdleOwned(e: Env, o: Own)
    requires Owned(o)
    ensures Owned(o.(laptops := KeepLaptops(e, o)))
    ensures forall ip :: Drives(o, ip) || IsBlocked(o, ip) ==> (Stale(e, o.(laptops := KeepLaptops(e, o)), ip) <==> Stale(e, o, ip))
  {
    var o' := o.(laptops := KeepLaptops(e, o));
    FewerDrivers(o, o');
    forall r | r in o.sessions ensures Drives(o, o.sessions[r]) {}
    forall r, ip | HeldOff(o', r, ip) ensures HeldOff(o, r, ip) && IsBlocked(o, ip) {
      assert ip in o.blocked[r];
    }
    forall ip | Drives(o, ip) ensures ip in o.laptops {
      var r :| r in o.sessions && o.sessions[r] == ip;
    }
    forall ip | IsBlocked(o, ip) ensures ip in o.laptops {
      var r :| r in o.blocked && ip in o.blocked[r];
      assert HeldOff(o, r, ip);
    }
  }

  // ── Taking up the rules a restart left in the kernel ──────────────

  ghost predicate Matches(e: Env, rule: DnatRule) {
    rule.station in e.config && TeamOf(e.config[rule.station]) == Some(rule.team)
  }

  /** Rule `i` becomes a session: it names the team now on its slot, and no
      earlier rule for that slot did. */
  ghost predicate Adopts(e: Env, dnat: seq<DnatRule>, i: nat) {
    && i < |dnat| && Matches(e, dnat[i])
    && forall j :: 0 <= j < i ==> !(Matches(e, dnat[j]) && dnat[j].station == dnat[i].station)
  }

  ghost predicate DistinctLaptops(e: Env, dnat: seq<DnatRule>) {
    forall i: nat, j: nat :: Adopts(e, dnat, i) && Adopts(e, dnat, j) && i != j ==> dnat[i].dsIp != dnat[j].dsIp
  }

  const NOBODY: Own := Own(map[], map[], map[])

  lemma {:induction false} AdoptAllShape(e: Env, dnat: seq<DnatRule>)
    ensures var o := AdoptAll(e, NOBODY, dnat);
      && o.blocked == map[] && AllOnField(e.config, o)
      && (forall r :: r in o.sessions ==> o.sessions[r] in o.laptops)
  {
    if dnat != [] {
      AdoptAllShape(e, dnat[..|dnat| - 1]);
      var rule := dnat[|dnat| - 1];
      if Matches(e, rule) { assert OnField(e.config, e.config[rule.station]); }
    }
  }

  /** Rule `i` became the session of `robot`. */
  ghost predicate Became(e: Env, dnat: seq<DnatRule>, i: nat, robot: Robot) {
    Adopts(e, dnat, i) && e.config[dnat[i].station] == robot
  }

  ghost predicate Restored(e: Env, dnat: seq<DnatRule>, sessions: map<Robot, Ip>) {
    && (forall r: Robot :: r in sessions ==> exists i: nat :: Became(e, dnat, i, r))
    && (forall i: nat, r: Robot :: Became(e, dnat, i, r) ==> r in sessions && sessions[r] == dnat[i].dsIp)
  }

  lemma AdoptsPrefix(e: Env, front: seq<DnatRule>, rule: DnatRule, i: nat)
    requires i < |front|
    ensures Adopts(e, front, i) <==> Adopts(e, front + [rule], i)
  {
    var dnat := front + [rule];
    assert forall j :: 0 <= j <= i ==> dnat[j] == front[j];
  }

  lemma AdoptNext(e: Env, front: seq<DnatRule>, rule: DnatRule, before: Own)
    requires ConfigOk(e.config) && Restored(e, front, before.sessions)
    ensures Restored(e, front + [rule], Adopt(e, before, rule).sessions)
  {
    var n := |front|;
    var dnat := front + [rule];
    forall i: nat, r: Robot | i < n ensures Became(e, front, i, r) <==> Became(e, dnat, i, r) {
      AdoptsPrefix(e, front, rule, i);
    }
    forall r: Robot | r in before.sessions ensures !Became(e, dnat, n, r) && exists i: nat :: Became(e, dnat, i, r) {
      var i: nat :| Became(e, front, i, r);
      assert Became(e, dnat, i, r);
    }
    if Matches(e, rule) && e.config[rule.station] !in before.sessions {
      forall j | 0 <= j < n && Matches(e, dnat[j]) ensures dnat[j].station != rule.station {
        FirstMatch(e, front, j);
        var i: nat :| i <= j && Adopts(e, front, i) && front[i].station == front[j].station;
        assert Became(e, front, i, e.config[front[i].station]);
      }
      assert Became(e, dnat, n, e.config[rule.station]);
    }
  }

  /** The restored sessions are exactly the adopted rules. */
  lemma {:induction false} AdoptAllSessions(e: Env, dnat: seq<DnatRule>)
    requires ConfigOk(e.config)
    ensures Restored(e, dnat, AdoptAll(e, NOBODY, dnat).sessions)
  {
    if dnat != [] {
      var front, rule := dnat[..|dnat| - 1], dnat[|dnat| - 1];
      AdoptAllSessions(e, front);
      AdoptNext(e, front, rule, AdoptAll(e, NOBODY, front));
      assert dnat == front + [rule];
    }
  }

  lemma {:induction false} FirstMatch(e: Env, dnat: seq<DnatRule>, j: nat)
    requires j < |dnat| && Matches(e, dnat[j])
    ensures exists i: nat :: i <= j && Adopts(e, dnat, i) && dnat[i].station == dnat[j].station
    decreases j
  {
    if !Adopts(e, dnat, j) {
      var k: nat :| k < j && Matches(e, dnat[k]) && dnat[k].station == dnat[j].station;
      FirstMatch(e, dnat, k);
    }
  }

  /** A restart restores the ownership rules exactly when no two of the rules
      that become sessions name the same laptop, which restore never checks. */
  lemma RestoreOwnedIffDistinct(e: Env, dnat: seq<DnatRule>)
    requires ConfigOk(e.config)
    ensures Owned(AdoptAll(e, NOBODY, dnat)) <==> DistinctLaptops(e, dnat)
  {
    AdoptAllShape(e, dnat);
    AdoptAllSessions(e, dnat);
    var o := AdoptAll(e, NOBODY, dnat);
    if DistinctLaptops(e, dnat) {
      forall a, b | a in o.sessions && b in o.sessions && o.sessions[a] == o.sessions[b] ensures a == b {
        var i: nat :| Became(e, dnat, i, a);
        var j: nat :| Became(e, dnat, j, b);
      }
    } else {
      var i: nat, j: nat :| Adopts(e, dnat, i) && Adopts(e, dnat, j) && i != j && dnat[i].dsIp == dnat[j].dsIp;
      assert Became(e, dnat, i, e.config[dnat[i].station]) && Became(e, dnat, j, e.config[dnat[j].station]);
      assert e.config[dnat[i].station] != e.config[dnat[j].station];
    }
  }

  /** Two rules left for one laptop on two slots: it then drives both robots. */
  lemma RestoreMayShareALaptop()
    ensures var e := Env(map[Slot1 := "1", Slot2 := "2"], 0);
      var o := AdoptAll(e, NOBODY, [DnatRule(Slot1, 1, "10.0.1.5"), DnatRule(Slot2, 2, "10.0.1.5")]);
      "1" in o.sessions && "2" in o.sessions && o.sessions["1"] == o.sessions["2"]
  {
  }
}
