/** The drive-session protocol on values: who drives which robot, the kernel
    rules that follow from it, and the steps that change either. */
module DriveState {
  import opened Field

  type Ip = string
  type Config = map<Station, Robot>

  const DS_STALE_TIMEOUT_MS: int := 20_000
  const LAPTOP_FORGET_MS: int := 600_000

  datatype Laptop = Laptop(team: Option<Team>, lastActivity: int, lastRobot: Option<Robot>)

  /** `blocked` holds, per robot, the further laptops held off its VLAN. */
  datatype Own = Own(laptops: map<Ip, Laptop>, sessions: map<Robot, Ip>, blocked: map<Robot, set<Ip>>)

  /** What an input may consult: the radio's config and the clock. */
  datatype Env = Env(config: Config, now: int)

  /** What an input does: the ownership it leaves, and the ownership at each
      moment it told the engine and asked for a sync. */
  datatype Out = Out(own: Own, touched: seq<Own>)

  datatype DnatRule = DnatRule(station: Station, team: Team, dsIp: Ip)
  datatype BlockRule = BlockRule(station: Station, dsIp: Ip)

  /** What a pass wants installed. Each wanted DNAT rule also names the route
      its laptop should have. */
  datatype Want = Want(dnat: set<DnatRule>, blocks: set<BlockRule>)

  datatype Item =
    | DropDnat(rule: DnatRule, copies: nat)
    | DropBlock(block: BlockRule)
    | DropRoute(ip: Ip)
    | PutDnat(rule: DnatRule)
    | PutBlock(block: BlockRule)
    | PutRoute(rule: DnatRule)

  datatype Stage = DroppingDnat | DroppingBlocks | DroppingRoutes | PuttingDnat | PuttingBlocks | PuttingRoutes

  /** A sync pass suspended at an await: the rules it decided on when it
      began, where it is, what is left there, and whether all went well. */
  datatype Pass = Pass(want: Want, stage: Stage, todo: set<Item>, ok: bool)

  /** The reconciler. `served` and `servedOk` describe the last finished pass,
      `disturbed` the laptops whose route somebody else changed since the
      newest pass began. */
  datatype Rec = Rec(installedDnat: map<DnatRule, nat>, installedBlocks: set<BlockRule>, routed: set<Ip>,
                     kernelDnat: multiset<DnatRule>, kernelBlocks: multiset<BlockRule>,
                     routes: map<Ip, Station>, pass: Option<Pass>, again: bool,
                     served: Want, servedOk: bool, disturbed: set<Ip>)

  datatype State = State(env: Env, own: Own, shown: map<Station, Ip>, rec: Rec)

  // ── Lookups ───────────────────────────────────────────────────────

  /** Two slots never hold the same robot. */
  ghost predicate ConfigOk(config: Config) {
    forall a, b :: a in config && b in config && config[a] == config[b] ==> a == b
  }

  /** The first slot from `k` on that holds `robot`. */
  function StationFrom(config: Config, robot: Robot, k: nat): (r: Option<Station>)
    requires k <= |STATIONS|
    ensures r.Some? ==> r.value in config && config[r.value] == robot
    ensures r.None? ==> forall j :: k <= j < |STATIONS| ==> !(STATIONS[j] in config && config[STATIONS[j]] == robot)
    decreases |STATIONS| - k
  {
    if k == |STATIONS| then None
    else if STATIONS[k] in config && config[STATIONS[k]] == robot then Some(STATIONS[k])
    else StationFrom(config, robot, k + 1)
  }

  function StationOf(config: Config, robot: Robot): Option<Station> { StationFrom(config, robot, 0) }

  ghost predicate OnField(config: Config, robot: Robot) { exists st :: st in config && config[st] == robot }

  lemma OnFieldHasStation(config: Config, robot: Robot)
    ensures OnField(config, robot) <==> StationOf(config, robot).Some?
  {
    if OnField(config, robot) {
      var st :| st in config && config[st] == robot;
      EveryStationListed(st);
    }
  }

  /** The robots of `team` on these slots, in slot order. */
  function RobotsOfTeam(config: Config, team: Team, slots: seq<Station>): (robots: seq<Robot>)
    ensures forall r :: r in robots ==> OnField(config, r) && TeamOf(r) == Some(team)
    ensures forall k :: 0 <= k < |slots| && slots[k] in config && TeamOf(config[slots[k]]) == Some(team) ==> config[slots[k]] in robots
  {
    if slots == [] then []
    else
      var st := slots[|slots| - 1];
      var before := RobotsOfTeam(config, team, slots[..|slots| - 1]);
      if st in config && TeamOf(config[st]) == Some(team) then before + [config[st]] else before
  }

  /** The robots listed are those of slots `a` and `b`, and `a` comes first. */
  ghost predicate OnSlots(config: Config, slots: seq<Station>, first: Robot, second: Robot, a: nat, b: nat) {
    && a < b < |slots| && slots[a] in config && slots[b] in config
    && config[slots[a]] == first && config[slots[b]] == second
  }

  lemma {:induction false} RobotAt(config: Config, team: Team, slots: seq<Station>, i: nat)
    requires i < |RobotsOfTeam(config, team, slots)|
    ensures exists a: nat :: a < |slots| && slots[a] in config && config[slots[a]] == RobotsOfTeam(config, team, slots)[i]
  {
    var n := |slots| - 1;
    if i < |RobotsOfTeam(config, team, slots[..n])| {
      RobotAt(config, team, slots[..n], i);
      var a: nat :| a < n && slots[..n][a] in config && config[slots[..n][a]] == RobotsOfTeam(config, team, slots[..n])[i];
      assert slots[a] == slots[..n][a];
    } else {
      assert slots[n] in config;
    }
  }

  /** A team's robots are listed in the order of their slots. */
  lemma {:induction false} InSlotOrder(config: Config, team: Team, slots: seq<Station>, i: nat, j: nat)
    requires i < j < |RobotsOfTeam(config, team, slots)|
    ensures var robots := RobotsOfTeam(config, team, slots);
      exists a: nat, b: nat :: OnSlots(config, slots, robots[i], robots[j], a, b)
  {
    var n := |slots| - 1;
    var robots, front := RobotsOfTeam(config, team, slots), RobotsOfTeam(config, team, slots[..n]);
    if j < |front| {
      InSlotOrder(config, team, slots[..n], i, j);
      var a: nat, b: nat :| OnSlots(config, slots[..n], front[i], front[j], a, b);
      assert OnSlots(config, slots, robots[i], robots[j], a, b);
    } else {
      RobotAt(config, team, slots[..n], i);
      var a: nat :| a < n && slots[..n][a] in config && config[slots[..n][a]] == front[i];
      assert OnSlots(config, slots, robots[i], robots[j], a, n);
    }
  }

  predicate Stale(e: Env, o: Own, ip: Ip) {
    ip !in o.laptops || e.now - o.laptops[ip].lastActivity > DS_STALE_TIMEOUT_MS
  }

  ghost predicate Drives(o: Own, ip: Ip) { exists r :: r in o.sessions && o.sessions[r] == ip }

  ghost function DrivenBy(o: Own, ip: Ip): (r: Option<Robot>)
    ensures r.Some? ==> r.value in o.sessions && o.sessions[r.value] == ip
    ensures r.None? <==> !Drives(o, ip)
  {
    if Drives(o, ip) then var r :| r in o.sessions && o.sessions[r] == ip; Some(r) else None
  }

  ghost predicate IsBlocked(o: Own, ip: Ip) { exists r :: r in o.blocked && ip in o.blocked[r] }

  /** Nobody is actively driving `robot`. */
  predicate Free(e: Env, o: Own, robot: Robot) {
    robot !in o.sessions || Stale(e, o, o.sessions[robot])
  }

  // ── The parts an input is made of ─────────────────────────────────

  function Quiet(o: Own): Out { Out(o, []) }

  function Loud(o: Own): Out { Out(o, [o]) }

  function Then(first: Out, second: Out): Out { Out(second.own, first.touched + second.touched) }

  function Prune(blocked: map<Robot, set<Ip>>): map<Robot, set<Ip>> {
    map r | r in blocked && blocked[r] != {} :: blocked[r]
  }

  function Without(o: Own, robots: set<Robot>): Own {
    o.(sessions := o.sessions - robots, blocked := o.blocked - robots)
  }

  /** Nobody drives the robot any more, so nobody is held off it either. */
  function EndSession(o: Own, robot: Robot): Out {
    if robot in o.sessions then Loud(Without(o, {robot})) else Quiet(o)
  }

  function Lifted(blocked: map<Robot, set<Ip>>, ip: Ip, which: set<Robot>): map<Robot, set<Ip>> {
    map r | r in blocked :: if r in which then blocked[r] - {ip} else blocked[r]
  }

  function LiftBlocks(o: Own, ip: Ip, which: set<Robot>): Out {
    var o' := o.(blocked := Prune(Lifted(o.blocked, ip, which)));
    if exists r :: r in o.blocked && r in which && ip in o.blocked[r] then Loud(o') else Quiet(o')
  }

  /** Another laptop is actively driving `robot`, so `ip` may not have it. */
  predicate Refused(e: Env, o: Own, robot: Robot, ip: Ip) {
    !Free(e, o, robot) && o.sessions[robot] != ip
  }

  function BlockedOn(o: Own, robot: Robot): set<Ip> {
    if robot in o.blocked then o.blocked[robot] else {}
  }

  function Remember(laptops: map<Ip, Laptop>, ip: Ip, robot: Robot): map<Ip, Laptop> {
    if ip in laptops then laptops[ip := laptops[ip].(lastRobot := Some(robot))] else laptops
  }

  function Take(o: Own, robot: Robot, ip: Ip): Own {
    Own(Remember(o.laptops, ip, robot), o.sessions[robot := ip], Prune(Lifted(o.blocked, ip, o.blocked.Keys)))
  }

  ghost function LetGo(o: Own, ip: Ip): Own {
    var previous := DrivenBy(o, ip);
    if previous.Some? then Without(o, {previous.value}) else o
  }

  ghost function Claim(e: Env, o: Own, robot: Robot, ip: Ip): Out {
    if robot in o.sessions && o.sessions[robot] == ip then Quiet(o)
    else if !Refused(e, o, robot, ip) then Loud(Take(LetGo(o, ip), robot, ip))
    else if Drives(o, ip) || ip in BlockedOn(o, robot) then Quiet(o)
    else Loud(o.(blocked := o.blocked[robot := BlockedOn(o, robot) + {ip}]))
  }

  // ── The inputs ────────────────────────────────────────────────────

  function Hear(e: Env, o: Own, ip: Ip, team: Option<Team>): Own {
    var laptop := if ip !in o.laptops then Laptop(team, e.now, None)
                  else if team.Some? then o.laptops[ip].(team := team, lastActivity := e.now)
                  else o.laptops[ip].(lastActivity := e.now);
    o.(laptops := o.laptops[ip := laptop])
  }

  function OtherTeams(o: Own, team: Team): set<Robot> {
    set r | r in o.blocked && TeamOf(r) != Some(team)
  }

  /** A handshake of `team` from `ip`, which drives nothing: take the team's
      only robot, or the one this laptop drove last. */
  ghost function Offer(e: Env, o: Own, ip: Ip, team: Team): Out
    requires ip in o.laptops
  {
    var robots := RobotsOfTeam(e.config, team, STATIONS);
    var last := o.laptops[ip].lastRobot;
    if |robots| == 1 then Claim(e, o, robots[0], ip)
    else if last.Some? && last.value in robots && Free(e, o, last.value) then Claim(e, o, last.value, ip)
    else Quiet(o)
  }

  /** The laptop's team is known to be `team`, its blocks elsewhere lifted. */
  ghost function Place(e: Env, o: Own, ip: Ip, team: Team): Out
    requires ip in o.laptops
  {
    var driving := DrivenBy(o, ip);
    if driving.None? then Offer(e, o, ip, team)
    else if TeamOf(driving.value) == Some(team) then Quiet(o)
    else
      var ended := EndSession(o, driving.value);
      Then(ended, Offer(e, ended.own, ip, team))
  }

  ghost function Heard(e: Env, o: Own, ip: Ip, team: Option<Team>): Out {
    if ip !in o.laptops && team.None? then Quiet(o)
    else
      var o1 := Hear(e, o, ip, team);
      if team.None? then Quiet(o1)
      else
        var lifted := LiftBlocks(o1, ip, OtherTeams(o1, team.value));
        Then(lifted, Place(e, lifted.own, ip, team.value))
  }

  function Active(e: Env, o: Own, ip: Ip): Own {
    var laptop := if ip in o.laptops then o.laptops[ip].(lastActivity := e.now) else Laptop(None, e.now, None);
    o.(laptops := o.laptops[ip := laptop])
  }

  function Forget(o: Own, ip: Ip): Own
    requires ip in o.laptops
  {
    o.(laptops := o.laptops[ip := o.laptops[ip].(lastRobot := None)])
  }

  ghost function StopDriving(o: Own, ip: Ip): Out
    requires ip in o.laptops
  {
    var driving := DrivenBy(o, ip);
    var ended := if driving.Some? then EndSession(o, driving.value) else Quiet(o);
    var forgot := Forget(ended.own, ip);
    Then(ended, LiftBlocks(forgot, ip, forgot.blocked.Keys))
  }

  ghost function Drive(e: Env, o: Own, ip: Ip, station: Option<Station>): Out {
    var o1 := Active(e, o, ip);
    if station.None? then StopDriving(o1, ip)
    else if station.value in e.config then Claim(e, o1, e.config[station.value], ip)
    else Quiet(o1)
  }

  /** Ends these sessions one after the other, first to last. */
  function EndEach(o: Own, robots: seq<Robot>): Out {
    if robots == [] then Quiet(o)
    else
      var before := EndEach(o, robots[..|robots| - 1]);
      Then(before, EndSession(before.own, robots[|robots| - 1]))
  }

  ghost function Gone(e: Env, o: Own): set<Robot> { set r | r in o.sessions && !OnField(e.config, r) }

  ghost function DropOffField(e: Env, o: Own): Own {
    o.(blocked := map r | r in o.blocked && OnField(e.config, r) :: o.blocked[r])
  }

  ghost predicate Waiting(e: Env, o: Own, team: Team, ip: Ip) {
    ip in o.laptops && o.laptops[ip].team == Some(team) && !Stale(e, o, ip) && !Drives(o, ip)
  }

  /** Of the waiting laptops among `listed`, the one heard last; of several
      heard at the same time the one listed first. */
  ghost function Freshest(e: Env, o: Own, team: Team, listed: seq<Ip>): (r: Option<Ip>)
    ensures r.Some? ==> Waiting(e, o, team, r.value) && r.value in listed
    ensures r.None? ==> forall ip :: ip in listed ==> !Waiting(e, o, team, ip)
    ensures r.Some? ==> forall ip :: ip in listed && Waiting(e, o, team, ip)
                                 ==> o.laptops[ip].lastActivity <= o.laptops[r.value].lastActivity
  {
    if listed == [] then None
    else
      var last := listed[|listed| - 1];
      var best := Freshest(e, o, team, listed[..|listed| - 1]);
      assert listed == listed[..|listed| - 1] + [last];
      if !Waiting(e, o, team, last) then best
      else if best.Some? && o.laptops[best.value].lastActivity >= o.laptops[last].lastActivity then best
      else Some(last)
  }

  /** A robot on `station` that nobody drives goes to a laptop of its team
      that is already talking to the field. */
  ghost function Arrive(e: Env, o: Own, station: Station, listed: seq<Ip>): Out {
    if station !in e.config || e.config[station] in o.sessions then Quiet(o)
    else
      var robot := e.config[station];
      if TeamOf(robot).None? || |RobotsOfTeam(e.config, TeamOf(robot).value, STATIONS)| != 1 then Quiet(o)
      else
        var ip := Freshest(e, o, TeamOf(robot).value, listed);
        if ip.Some? then Claim(e, o, robot, ip.value) else Quiet(o)
  }

  ghost function Arrivals(e: Env, o: Own, slots: seq<Station>, listed: seq<Ip>): Out {
    if slots == [] then Quiet(o)
    else
      var before := Arrivals(e, o, slots[..|slots| - 1], listed);
      Then(before, Arrive(e, before.own, slots[|slots| - 1], listed))
  }

  /** `gone` and `listed` are the orders in which the departed robots and the
      known laptops happened to be visited. */
  ghost function ConfigChanged(e: Env, o: Own, gone: seq<Robot>, listed: seq<Ip>): Out {
    var ended := EndEach(o, gone);
    var arrived := Arrivals(e, DropOffField(e, ended.own), STATIONS, listed);
    Then(Then(ended, arrived), Loud(arrived.own))
  }

  function Disconnected(e: Env, o: Own, ip: Ip): Out {
    LiftBlocks(o, ip, set r | r in o.blocked && Free(e, o, r))
  }

  function StaleRobots(e: Env, o: Own): set<Robot> {
    set r | r in o.sessions && Stale(e, o, o.sessions[r])
  }

  function WithoutStale(e: Env, o: Own): map<Robot, set<Ip>> {
    map r | r in o.blocked :: set ip | ip in o.blocked[r] && !Stale(e, o, ip)
  }

  /** Laptops idle too long are forgotten, unless they drive or are held off. */
  ghost function KeepLaptops(e: Env, o: Own): map<Ip, Laptop> {
    map ip | ip in o.laptops && (e.now - o.laptops[ip].lastActivity < LAPTOP_FORGET_MS || Drives(o, ip) || IsBlocked(o, ip))
      :: o.laptops[ip]
  }

  /** Sessions of quiet laptops end, and blocks on quiet laptops lift. */
  function LetGoStale(e: Env, o: Own): Own {
    var ended := Without(o, StaleRobots(e, o));
    ended.(blocked := Prune(WithoutStale(e, ended)))
  }

  predicate AnyStale(e: Env, o: Own) {
    StaleRobots(e, o) != {}
    || exists r :: r in o.blocked - StaleRobots(e, o) && exists ip :: ip in o.blocked[r] && Stale(e, o, ip)
  }

  ghost function Sweep(e: Env, o: Own): Out {
    var lifted := LetGoStale(e, o);
    var o' := lifted.(laptops := KeepLaptops(e, lifted));
    if AnyStale(e, o) then Loud(o') else Quiet(o')
  }

  /** The session a rule left in the kernel becomes again, if the robot now on
      its slot is of the rule's team and has no driver yet. */
  function Adopt(e: Env, o: Own, rule: DnatRule): Own {
    if rule.station !in e.config || TeamOf(e.config[rule.station]) != Some(rule.team)
       || e.config[rule.station] in o.sessions then o
    else o.(laptops := o.laptops[rule.dsIp := Laptop(Some(rule.team), e.now, None)],
            sessions := o.sessions[e.config[rule.station] := rule.dsIp])
  }

  function AdoptAll(e: Env, o: Own, dnat: seq<DnatRule>): Own {
    if dnat == [] then o else Adopt(e, AdoptAll(e, o, dnat[..|dnat| - 1]), dnat[|dnat| - 1])
  }

  // ── Telling the engine, asking for a sync ─────────────────────────

  /** The laptop driving whatever robot is on each slot. */
  function StationView(config: Config, sessions: map<Robot, Ip>): map<Station, Ip> {
    map st | st in config && config[st] in sessions :: sessions[config[st]]
  }

  /** The kernel rules the sessions, the blocks and the config ask for. */
  function Demand(config: Config, o: Own): Want {
    Want(set st | st in config && config[st] in o.sessions && TeamOf(config[st]).Some?
           :: DnatRule(st, TeamOf(config[st]).value, o.sessions[config[st]]),
         set st, ip | st in config && config[st] in o.blocked && ip in o.blocked[config[st]] :: BlockRule(st, ip))
  }

  function RoutesOf(want: Want): set<Ip> { set r | r in want.dnat :: r.dsIp }

  function BeginPass(r: Rec, want: Want): Rec {
    r.(pass := Some(Pass(want, DroppingDnat, set rule | rule in r.installedDnat :: DropDnat(rule, r.installedDnat[rule]), true)),
       again := false, disturbed := {})
  }

  function RequestSync(r: Rec, want: Want): Rec {
    if r.pass.None? then BeginPass(r, want) else r.(again := true)
  }

  /** Something changed: the engine is told now, the kernel in the background. */
  function Touch(s: State, o: Own): State {
    s.(own := o, shown := StationView(s.env.config, o.sessions), rec := RequestSync(s.rec, Demand(s.env.config, o)))
  }

  function TouchEach(s: State, owns: seq<Own>): State {
    if owns == [] then s else Touch(TouchEach(s, owns[..|owns| - 1]), owns[|owns| - 1])
  }

  /** The whole state after an input. */
  function Apply(s: State, out: Out): State { TouchEach(s, out.touched).(own := out.own) }

  /** The five-second sweep asks for a sync even when it changed nothing. */
  ghost function ApplySweep(s: State): State {
    var out := Sweep(s.env, s.own);
    var s' := Apply(s, out);
    if out.touched == [] then s'.(rec := RequestSync(s'.rec, Demand(s'.env.config, s'.own))) else s'
  }

  function AdoptedRules(installed: map<DnatRule, nat>, dnat: seq<DnatRule>): map<DnatRule, nat> {
    if dnat == [] then installed
    else
      var before := AdoptedRules(installed, dnat[..|dnat| - 1]);
      var rule := dnat[|dnat| - 1];
      before[rule := (if rule in before then before[rule] else 0) + 1]
  }

  function Restore(s: State, dnat: seq<DnatRule>, blocks: seq<BlockRule>): State {
    Touch(s.(rec := s.rec.(installedDnat := AdoptedRules(s.rec.installedDnat, dnat),
                           installedBlocks := s.rec.installedBlocks + set b | b in blocks)),
          AdoptAll(s.env, s.own, dnat))
  }

  /** The kernel rules were flushed from outside; routes were not. */
  function KernelFlushed(s: State): State {
    s.(rec := RequestSync(s.rec.(installedDnat := map[], installedBlocks := {},
                                 kernelDnat := multiset{}, kernelBlocks := multiset{}),
                          Demand(s.env.config, s.own)))
  }

  // ── Steps: a sync pass between two awaits ─────────────────────────

  function TakeCopies(table: multiset<DnatRule>, rule: DnatRule, copies: nat): multiset<DnatRule> {
    table[rule := if table[rule] <= copies then 0 else table[rule] - copies]
  }

  /** Whether the item still calls for an effect when its turn comes. */
  function Needed(r: Rec, want: Want, item: Item): bool {
    match item
    case DropDnat(rule, _) => rule !in want.dnat
    case DropBlock(block) => block !in want.blocks
    case DropRoute(ip) => ip !in RoutesOf(want)
    case PutDnat(rule) => rule !in r.installedDnat
    case PutBlock(block) => block !in r.installedBlocks
    case PutRoute(rule) => !(rule.dsIp in r.routes && r.routes[rule.dsIp] == rule.station)
  }

  /** The effect on the kernel, and the record made of it. */
  function Effect(r: Rec, item: Item): Rec {
    match item
    case DropDnat(rule, copies) =>
      r.(installedDnat := r.installedDnat - {rule}, kernelDnat := TakeCopies(r.kernelDnat, rule, copies))
    case DropBlock(block) =>
      r.(installedBlocks := r.installedBlocks - {block}, kernelBlocks := r.kernelBlocks - multiset{block})
    case DropRoute(ip) => r.(routed := r.routed - {ip}, routes := r.routes - {ip})
    case PutDnat(rule) =>
      r.(installedDnat := r.installedDnat[rule := 1], kernelDnat := r.kernelDnat + multiset{rule})
    case PutBlock(block) =>
      r.(installedBlocks := r.installedBlocks + {block}, kernelBlocks := r.kernelBlocks + multiset{block})
    case PutRoute(rule) => r.(routed := r.routed + {rule.dsIp}, routes := r.routes[rule.dsIp := rule.station])
  }

  /** A route already right is recorded as this reconciler's. */
  function Skip(r: Rec, item: Item): Rec {
    if item.PutRoute? then r.(routed := r.routed + {item.rule.dsIp}) else r
  }

  /** Handle one item of the current stage. `ok` is whether its effect, if it
      needs one, succeeded. */
  function Work(r: Rec, item: Item, ok: bool): Rec
    requires r.pass.Some? && item in r.pass.value.todo
  {
    var p := r.pass.value;
    var needed := Needed(r, p.want, item);
    var r' := if !needed then Skip(r, item) else if ok then Effect(r, item) else r;
    r'.(pass := Some(p.(todo := p.todo - {item}, ok := p.ok && (!needed || ok))))
  }

  /** A stage with nothing left gives way to the next; the last one ends the
      pass, or begins another if a sync was asked for meanwhile. */
  function Advance(r: Rec, demand: Want): Rec
    requires r.pass.Some? && r.pass.value.todo == {}
  {
    var p := r.pass.value;
    match p.stage
    case DroppingDnat => r.(pass := Some(p.(stage := DroppingBlocks,
        todo := set b | b in r.installedBlocks :: DropBlock(b))))
    case DroppingBlocks => r.(pass := Some(p.(stage := DroppingRoutes,
        todo := set ip | ip in r.routed :: DropRoute(ip))))
    case DroppingRoutes => r.(pass := Some(p.(stage := PuttingDnat,
        todo := set rule | rule in p.want.dnat :: PutDnat(rule))))
    case PuttingDnat => r.(pass := Some(p.(stage := PuttingBlocks,
        todo := set b | b in p.want.blocks :: PutBlock(b))))
    case PuttingBlocks => r.(pass := Some(p.(stage := PuttingRoutes,
        todo := set rule | rule in p.want.dnat :: PutRoute(rule))))
    case PuttingRoutes =>
      if r.again then BeginPass(r, demand)
      else r.(pass := None, served := p.want, servedOk := p.ok)
  }

  /** Somebody other than the reconciler changed a laptop's route. */
  function RouteMoved(r: Rec, ip: Ip, to: Option<Station>): Rec {
    r.(disturbed := r.disturbed + {ip},
       routes := if to.Some? then r.routes[ip := to.value] else r.routes - {ip})
  }
}
