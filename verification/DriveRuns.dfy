/** Whole runs: inputs, the clock, route changes and the steps of a sync pass
    in any interleaving, from a fresh start or a restart. */
module DriveRuns {
  import opened Field
  import opened DriveState
  import opened DriveOwnership
  import opened DriveReconciler

  // ── No change goes untold ─────────────────────────────────────────

  ghost predicate SameRules(a: Own, b: Own) { a.sessions == b.sessions && a.blocked == b.blocked }

  ghost predicate AllOneEach(owns: seq<Own>) { forall o :: o in owns ==> OneEach(o.sessions) }

  /** The engine was told and a sync asked for after the last change of a
      session or a block. */
  ghost predicate Told(o: Own, out: Out) {
    && AllOneEach(out.touched)
    && SameRules(if out.touched == [] then o else out.touched[|out.touched| - 1], out.own)
  }

  lemma ThenTold(o: Own, first: Out, second: Out)
    requires Told(o, first) && Told(first.own, second)
    ensures Told(o, Then(first, second))
  {
  }

  lemma LiftTold(o: Own, ip: Ip, which: set<Robot>)
    requires Owned(o)
    ensures Told(o, LiftBlocks(o, ip, which))
  {
    if LiftBlocks(o, ip, which).touched == [] {
      forall r | r in o.blocked ensures Lifted(o.blocked, ip, which)[r] == o.blocked[r] {}
      assert Prune(Lifted(o.blocked, ip, which)) == o.blocked;
    }
  }

  lemma ClaimTold(e: Env, o: Own, robot: Robot, ip: Ip)
    requires Owned(o) && ip in o.laptops
    ensures Told(o, Claim(e, o, robot, ip))
  {
  }

  lemma EndTold(o: Own, robot: Robot)
    requires Owned(o)
    ensures Told(o, EndSession(o, robot))
  {
  }

  lemma OfferTold(e: Env, o: Own, ip: Ip, team: Team)
    requires Owned(o) && ip in o.laptops
    ensures Told(o, Offer(e, o, ip, team))
  {
    var robots := RobotsOfTeam(e.config, team, STATIONS);
    var last := o.laptops[ip].lastRobot;
    if |robots| == 1 {
      ClaimTold(e, o, robots[0], ip);
    } else if last.Some? {
      ClaimTold(e, o, last.value, ip);
    }
  }

  lemma PlaceTold(e: Env, o: Own, ip: Ip, team: Team)
    requires Owned(o) && ip in o.laptops
    ensures Told(o, Place(e, o, ip, team))
  {
    var driving := DrivenBy(o, ip);
    if driving.None? {
      OfferTold(e, o, ip, team);
    } else if TeamOf(driving.value) != Some(team) {
      EndTold(o, driving.value);
      WithoutOwned(o, {driving.value});
      var ended := EndSession(o, driving.value);
      OfferTold(e, ended.own, ip, team);
      ThenTold(o, ended, Offer(e, ended.own, ip, team));
    }
  }

  lemma HeardTold(e: Env, o: Own, ip: Ip, team: Option<Team>)
    requires Owned(o)
    ensures Told(o, Heard(e, o, ip, team))
  {
    var o1 := Hear(e, o, ip, team);
    OtherRecordsOwned(o, o1.laptops);
    if team.Some? {
      var lifted := LiftBlocks(o1, ip, OtherTeams(o1, team.value));
      LiftTold(o1, ip, OtherTeams(o1, team.value));
      LiftOwned(o1, ip, OtherTeams(o1, team.value));
      PlaceTold(e, lifted.own, ip, team.value);
      ThenTold(o1, lifted, Place(e, lifted.own, ip, team.value));
    }
  }

  lemma DriveTold(e: Env, o: Own, ip: Ip, station: Option<Station>)
    requires Owned(o)
    ensures Told(o, Drive(e, o, ip, station))
  {
    var o1 := Active(e, o, ip);
    OtherRecordsOwned(o, o1.laptops);
    if station.None? {
      var driving := DrivenBy(o1, ip);
      var ended := if driving.Some? then EndSession(o1, driving.value) else Quiet(o1);
      if driving.Some? {
        EndTold(o1, driving.value);
        WithoutOwned(o1, {driving.value});
      }
      var forgot := Forget(ended.own, ip);
      OtherRecordsOwned(ended.own, forgot.laptops);
      LiftTold(forgot, ip, forgot.blocked.Keys);
      ThenTold(o1, ended, LiftBlocks(forgot, ip, forgot.blocked.Keys));
    } else if station.value in e.config {
      ClaimTold(e, o1, e.config[station.value], ip);
    }
  }

  lemma {:induction false} EndEachOneEach(o: Own, robots: seq<Robot>)
    requires Owned(o)
    ensures AllOneEach(EndEach(o, robots).touched)
  {
    if robots != [] {
      var front := robots[..|robots| - 1];
      EndEachOneEach(o, front);
      EndEachIs(o, front);
      WithoutOwned(o, Elements(front));
      EndTold(EndEach(o, front).own, robots[|robots| - 1]);
    }
  }

  lemma {:induction false} ArrivalsOneEach(e: Env, o: Own, slots: seq<Station>, listed: seq<Ip>)
    requires Owned(o) && AllOnField(e.config, o)
    ensures AllOneEach(Arrivals(e, o, slots, listed).touched)
  {
    if slots != [] {
      var front, st := slots[..|slots| - 1], slots[|slots| - 1];
      ArrivalsOneEach(e, o, front, listed);
      ArrivalsOwned(e, o, front, listed);
      var before := Arrivals(e, o, front, listed).own;
      ArriveOneEach(e, before, st, listed);
    }
  }

  lemma ArriveOneEach(e: Env, o: Own, station: Station, listed: seq<Ip>)
    requires Owned(o)
    ensures AllOneEach(Arrive(e, o, station, listed).touched)
  {
  }

  lemma ConfigChangedTold(e: Env, o: Own, gone: seq<Robot>, listed: seq<Ip>)
    requires Owned(o) && Elements(gone) == Gone(e, o)
    ensures Told(o, ConfigChanged(e, o, gone, listed)) && ConfigChanged(e, o, gone, listed).touched != []
  {
    EndEachOneEach(o, gone);
    DepartedOwned(e, o, gone);
    var o2 := DropOffField(e, EndEach(o, gone).own);
    ArrivalsOneEach(e, o2, STATIONS, listed);
    ArrivalsOwned(e, o2, STATIONS, listed);
  }

  lemma NoneStale(e: Env, o: Own)
    requires !AnyStale(e, o) && forall r :: r in o.blocked ==> o.blocked[r] != {}
    ensures SameRules(o, LetGoStale(e, o))
  {
    assert StaleRobots(e, o) == {};
    var live := WithoutStale(e, o);
    assert Without(o, {}) == o;
    forall r | r in o.blocked ensures live[r] == o.blocked[r] {
      assert r in o.blocked - StaleRobots(e, o);
    }
    assert Prune(live) == o.blocked;
  }

  lemma SweepTold(e: Env, o: Own)
    requires Owned(o)
    ensures Told(o, Sweep(e, o))
  {
    SweepOwned(e, o);
    if !AnyStale(e, o) { NoneStale(e, o); }
  }

  // ── The invariant ─────────────────────────────────────────────────

  lemma DemandOk(config: Config, o: Own)
    requires ConfigOk(config) && OneEach(o.sessions)
    ensures WantOk(Demand(config, o))
  {
  }

  lemma SameDemand(config: Config, a: Own, b: Own)
    requires SameRules(a, b)
    ensures Demand(config, a) == Demand(config, b) && StationView(config, a.sessions) == StationView(config, b.sessions)
  {
  }

  /** Unless another pass is due, the pass under way, or the last one, is for
      what is wanted now. */
  ghost predicate Current(s: State) {
    s.rec.again || Demand(s.env.config, s.own) == (if s.rec.pass.Some? then s.rec.pass.value.want else s.rec.served)
  }

  ghost predicate Shown(s: State) { s.shown == StationView(s.env.config, s.own.sessions) }

  ghost predicate Inv(s: State) {
    && ConfigOk(s.env.config) && Owned(s.own) && AllOnField(s.env.config, s.own)
    && Shown(s) && RecOk(s.rec) && Current(s)
  }

  lemma {:induction false} TouchEachOk(s: State, owns: seq<Own>)
    requires ConfigOk(s.env.config) && RecOk(s.rec) && AllOneEach(owns)
    ensures TouchEach(s, owns).env == s.env && RecOk(TouchEach(s, owns).rec)
    ensures owns != [] ==> Shown(TouchEach(s, owns)) && Current(TouchEach(s, owns))
    ensures owns != [] ==> TouchEach(s, owns).own == owns[|owns| - 1]
  {
    if owns != [] {
      var front, last := owns[..|owns| - 1], owns[|owns| - 1];
      TouchEachOk(s, front);
      DemandOk(s.env.config, last);
      RequestOk(TouchEach(s, front).rec, Demand(s.env.config, last));
    }
  }

  /** Whatever an input does, telling of it as the program does keeps the
      reconciler right and the engine's view current. */
  lemma ApplyOk(s: State, out: Out)
    requires ConfigOk(s.env.config) && RecOk(s.rec) && Told(s.own, out)
    requires out.touched == [] ==> Shown(s) && Current(s)
    ensures Apply(s, out).env == s.env && Apply(s, out).own == out.own
    ensures RecOk(Apply(s, out).rec) && Shown(Apply(s, out)) && Current(Apply(s, out))
  {
    TouchEachOk(s, out.touched);
    var last := if out.touched == [] then s.own else out.touched[|out.touched| - 1];
    SameDemand(s.env.config, last, out.own);
  }

  // ── Runs ──────────────────────────────────────────────────────────

  datatype Label =
    | HeardL(ip: Ip, team: Option<Team>)
    | DriveL(ip: Ip, station: Option<Station>)
    | ConfigL(config: Config, gone: seq<Robot>, listed: seq<Ip>)
    | DisconnectedL(ip: Ip)
    | SweepL
    | FlushL
    | ClockL(now: int)
    | RouteL(ip: Ip, to: Option<Station>)
    | WorkL(item: Item, ok: bool)
    | AdvanceL

  ghost predicate Possible(s: State, l: Label) {
    match l
    case ConfigL(config, gone, listed) =>
      ConfigOk(config) && Elements(gone) == Gone(s.env.(config := config), s.own)
      && (set ip | ip in listed) == s.own.laptops.Keys
    case ClockL(now) => now >= s.env.now
    case WorkL(item, _) => s.rec.pass.Some? && item in s.rec.pass.value.todo
    case AdvanceL => s.rec.pass.Some? && s.rec.pass.value.todo == {}
    case _ => true
  }

  ghost function Next(s: State, l: Label): State
    requires Possible(s, l)
  {
    match l
    case HeardL(ip, team) => Apply(s, Heard(s.env, s.own, ip, team))
    case DriveL(ip, station) => Apply(s, Drive(s.env, s.own, ip, station))
    case ConfigL(config, gone, listed) =>
      var s' := s.(env := s.env.(config := config));
      Apply(s', ConfigChanged(s'.env, s.own, gone, listed))
    case DisconnectedL(ip) => Apply(s, Disconnected(s.env, s.own, ip))
    case SweepL => ApplySweep(s)
    case FlushL => KernelFlushed(s)
    case ClockL(now) => s.(env := s.env.(now := now))
    case RouteL(ip, to) => s.(rec := RouteMoved(s.rec, ip, to))
    case WorkL(item, ok) => s.(rec := Work(s.rec, item, ok))
    case AdvanceL => s.(rec := Advance(s.rec, Demand(s.env.config, s.own)))
  }

  lemma InputKeeps(s: State, l: Label)
    requires Inv(s) && Possible(s, l)
    requires l.HeardL? || l.DriveL? || l.DisconnectedL?
    ensures Inv(Next(s, l))
  {
    match l {
      case HeardL(ip, team) =>
        HeardOwned(s.env, s.own, ip, team);
        HeardTold(s.env, s.own, ip, team);
        ApplyOk(s, Heard(s.env, s.own, ip, team));
      case DriveL(ip, station) =>
        DriveOwned(s.env, s.own, ip, station);
        DriveTold(s.env, s.own, ip, station);
        ApplyOk(s, Drive(s.env, s.own, ip, station));
      case DisconnectedL(ip) =>
        DisconnectedOwned(s.env, s.own, ip);
        LiftTold(s.own, ip, set r | r in s.own.blocked && Free(s.env, s.own, r));
        ApplyOk(s, Disconnected(s.env, s.own, ip));
    }
  }

  lemma ConfigKeeps(s: State, l: Label)
    requires Inv(s) && Possible(s, l) && l.ConfigL?
    ensures Inv(Next(s, l))
  {
    var s' := s.(env := s.env.(config := l.config));
    ConfigChangedOwned(s'.env, s.own, l.gone, l.listed);
    ConfigChangedTold(s'.env, s.own, l.gone, l.listed);
    ApplyOk(s', ConfigChanged(s'.env, s.own, l.gone, l.listed));
  }

  lemma SweepKeeps(s: State)
    requires Inv(s)
    ensures Inv(ApplySweep(s))
  {
    var out := Sweep(s.env, s.own);
    SweepOwned(s.env, s.own);
    SweepTold(s.env, s.own);
    ApplyOk(s, out);
    DemandOk(s.env.config, out.own);
    RequestOk(Apply(s, out).rec, Demand(s.env.config, out.own));
  }

  lemma FlushKeeps(s: State)
    requires Inv(s)
    ensures Inv(KernelFlushed(s))
  {
    var want := Demand(s.env.config, s.own);
    var r := s.rec.(installedDnat := map[], installedBlocks := {}, kernelDnat := multiset{}, kernelBlocks := multiset{});
    DemandOk(s.env.config, s.own);
    if r.pass.None? {
      BeginOk(r, want);
    } else {
      var r' := r.(again := true);
      assert PassOk(r', r'.pass.value);
    }
  }

  lemma ReconciledKeeps(s: State, r: Rec)
    requires Inv(s) && RecOk(r) && s.rec.pass.Some? && r.pass.Some?
    requires r.again == s.rec.again && r.pass.value.want == s.rec.pass.value.want
    ensures Inv(s.(rec := r))
  {
  }

  lemma WorkKeeps(s: State, item: Item, ok: bool)
    requires Inv(s) && Possible(s, WorkL(item, ok))
    ensures Inv(s.(rec := Work(s.rec, item, ok)))
  {
    WorkOk(s.rec, item, ok);
    WorkFrame(s.rec, item, ok);
    ReconciledKeeps(s, Work(s.rec, item, ok));
  }

  lemma AdvanceKeeps(s: State)
    requires Inv(s) && Possible(s, AdvanceL)
    ensures Inv(Next(s, AdvanceL))
  {
    DemandOk(s.env.config, s.own);
    AdvanceOk(s.rec, Demand(s.env.config, s.own));
  }

  /** Every step of every kind keeps the invariant. */
  lemma NextKeeps(s: State, l: Label)
    requires Inv(s) && Possible(s, l)
    ensures Inv(Next(s, l))
  {
    match l
    case HeardL(_, _) => InputKeeps(s, l);
    case DriveL(_, _) => InputKeeps(s, l);
    case DisconnectedL(_) => InputKeeps(s, l);
    case ConfigL(_, _, _) => ConfigKeeps(s, l);
    case SweepL => SweepKeeps(s);
    case FlushL => FlushKeeps(s);
    case ClockL(_) =>
    case RouteL(ip, to) => RouteMovedOk(s.rec, ip, to);
    case WorkL(item, ok) => WorkKeeps(s, item, ok);
    case AdvanceL => AdvanceKeeps(s);
  }
}
