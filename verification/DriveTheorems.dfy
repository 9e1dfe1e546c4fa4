/** What the drive sessions promise over whole runs. */
module DriveTheorems {
  import opened Field
  import opened DriveState
  import opened DriveOwnership
  import opened DriveReconciler
  import opened DriveRuns

  ghost predicate Run(states: seq<State>, labels: seq<Label>) {
    && |states| == |labels| + 1
    && forall i :: 0 <= i < |labels| ==> Possible(states[i], labels[i]) && states[i + 1] == Next(states[i], labels[i])
  }

  lemma {:induction false} RunKeeps(states: seq<State>, labels: seq<Label>, i: nat)
    requires Run(states, labels) && Inv(states[0]) && i < |states|
    ensures Inv(states[i])
  {
    if i > 0 {
      RunKeeps(states, labels, i - 1);
      NextKeeps(states[i - 1], labels[i - 1]);
    }
  }

  // ── The reconciler ────────────────────────────────────────────────

  /** No wake-up is lost: whenever no pass is under way and the last one met
      no failure, the kernel holds exactly the rules that the sessions, the
      blocks and the config ask for now, and the driving laptops are routed. */
  lemma RunConverges(states: seq<State>, labels: seq<Label>, i: nat)
    requires Run(states, labels) && Inv(states[0]) && i < |states|
    requires states[i].rec.pass.None? && states[i].rec.servedOk
    ensures var s := states[i]; var want := Demand(s.env.config, s.own);
      && s.rec.installedDnat.Keys == want.dnat && s.rec.installedBlocks == want.blocks && s.rec.routed == RoutesOf(want)
      && (forall rule :: s.rec.kernelDnat[rule] > 0 <==> rule in want.dnat)
      && (forall b :: s.rec.kernelBlocks[b] == if b in want.blocks then 1 else 0)
      && (forall rule :: rule in want.dnat && rule.dsIp !in s.rec.disturbed
            ==> rule.dsIp in s.rec.routes && s.rec.routes[rule.dsIp] == rule.station)
  {
    RunKeeps(states, labels, i);
    var s := states[i];
    assert Serves(s.rec, Demand(s.env.config, s.own));
    assert forall rule :: rule in Demand(s.env.config, s.own).dnat ==> Routed(s.rec, rule);
  }

  /** At every moment, whatever failed, the records describe the kernel, and
      the engine has been told who drives the robot on each slot. */
  lemma RunExact(states: seq<State>, labels: seq<Label>, i: nat)
    requires Run(states, labels) && Inv(states[0]) && i < |states|
    ensures var s := states[i];
      && (forall rule :: s.rec.kernelDnat[rule] == if rule in s.rec.installedDnat then s.rec.installedDnat[rule] else 0)
      && (forall b :: s.rec.kernelBlocks[b] == if b in s.rec.installedBlocks then 1 else 0)
      && (forall st :: st in s.shown <==> st in s.env.config && s.env.config[st] in s.own.sessions)
      && (forall st :: st in s.shown ==> s.shown[st] == s.own.sessions[s.env.config[st]])
  {
    RunKeeps(states, labels, i);
  }

  function Measure(r: Rec): (nat, nat, nat) {
    match r.pass
    case None => (0, 0, 0)
    case Some(p) => (if r.again then 2 else 1, 5 - Order(p.stage), |p.todo|)
  }

  predicate Less(a: (nat, nat, nat), b: (nat, nat, nat)) {
    a.0 < b.0 || (a.0 == b.0 && (a.1 < b.1 || (a.1 == b.1 && a.2 < b.2)))
  }

  /** A pass under way always has a next step. */
  lemma PassHasStep(s: State)
    requires s.rec.pass.Some?
    ensures exists l: Label :: (l.WorkL? || l.AdvanceL?) && Possible(s, l)
  {
    if s.rec.pass.value.todo == {} {
      assert Possible(s, AdvanceL);
    } else {
      var item :| item in s.rec.pass.value.todo;
      assert Possible(s, WorkL(item, true));
    }
  }

  /** Each step of a pass, failed or not, brings its end nearer. */
  lemma PassEnds(r: Rec, item: Item, ok: bool, demand: Want)
    requires r.pass.Some?
    ensures item in r.pass.value.todo ==> Less(Measure(Work(r, item, ok)), Measure(r))
    ensures r.pass.value.todo == {} ==> Less(Measure(Advance(r, demand)), Measure(r))
  {
    if item in r.pass.value.todo { WorkFrame(r, item, ok); }
  }

  /** Nothing the pass could do changes what is installed. */
  ghost predicate Idle(r: Rec, r0: Rec) {
    && r.installedDnat == r0.installedDnat && r.installedBlocks == r0.installedBlocks && r.routed == r0.routed
    && r.kernelDnat == r0.kernelDnat && r.kernelBlocks == r0.kernelBlocks && r.routes == r0.routes && !r.again
    && (r.pass.Some? ==> r.pass.value.want == r0.served && r.pass.value.ok && TodoIdle(r.pass.value))
    && (r.pass.None? ==> r.served == r0.served && r.servedOk)
  }

  ghost predicate TodoIdle(p: Pass) {
    forall item :: item in p.todo ==>
      match item
      case DropDnat(rule, _) => rule in p.want.dnat
      case DropBlock(b) => b in p.want.blocks
      case DropRoute(ip) => ip in RoutesOf(p.want)
      case PutDnat(rule) => rule in p.want.dnat
      case PutBlock(b) => b in p.want.blocks
      case PutRoute(rule) => rule in p.want.dnat
  }

  ghost predicate Settled(r: Rec) {
    && r.pass.None? && !r.again && r.servedOk && Serves(r, r.served)
    && forall rule :: rule in r.served.dnat ==> rule.dsIp in r.routes && r.routes[rule.dsIp] == rule.station
  }

  lemma IdleWork(r: Rec, r0: Rec, item: Item, ok: bool)
    requires Settled(r0) && Idle(r, r0) && r.pass.Some? && item in r.pass.value.todo
    ensures Idle(Work(r, item, ok), r0)
  {
  }

  lemma IdleAdvance(r: Rec, r0: Rec, demand: Want)
    requires Settled(r0) && Idle(r, r0) && r.pass.Some? && r.pass.value.todo == {}
    ensures Idle(Advance(r, demand), r0)
  {
  }

  /** Once all is as asked for, a further sync changes nothing: no step of the
      pass it begins, and none that follows, touches the kernel or the records. */
  lemma {:induction false} FurtherSyncIsIdle(states: seq<State>, labels: seq<Label>, s: State, i: nat)
    requires Inv(s) && Settled(s.rec) && Run(states, labels) && i < |states|
    requires states[0] == s.(rec := RequestSync(s.rec, Demand(s.env.config, s.own)))
    requires forall j :: 0 <= j < |labels| ==> labels[j].WorkL? || labels[j].AdvanceL?
    ensures Idle(states[i].rec, s.rec)
  {
    if i == 0 {
    } else {
      FurtherSyncIsIdle(states, labels, s, i - 1);
      var before := states[i - 1];
      match labels[i - 1]
      case WorkL(item, ok) => IdleWork(before.rec, s.rec, item, ok);
      case AdvanceL => IdleAdvance(before.rec, s.rec, Demand(before.env.config, before.own));
    }
  }

  // ── One rule per slot ─────────────────────────────────────────────

  ghost predicate Exclusive(r: Rec) {
    && (forall a, b :: a in r.installedDnat && b in r.installedDnat && a.station == b.station ==> a == b)
    && (r.pass.Some? ==> r.pass.value.ok)
  }

  /** Rules go in only after the ones they replace are out. */
  lemma WorkExclusive(r: Rec, item: Item)
    requires RecOk(r) && Exclusive(r) && r.pass.Some? && item in r.pass.value.todo
    ensures Exclusive(Work(r, item, true))
  {
  }

  ghost predicate NoFailure(labels: seq<Label>) {
    forall j :: 0 <= j < |labels| && labels[j].WorkL? ==> labels[j].ok
  }

  lemma TouchEachRec(s: State, owns: seq<Own>)
    requires Exclusive(s.rec)
    ensures Exclusive(TouchEach(s, owns).rec)
  {
  }

  /** As long as no effect fails, no two rules for one slot are ever in the
      kernel together, however the passes interleave with the inputs. */
  lemma {:induction false} RunExclusive(states: seq<State>, labels: seq<Label>, i: nat)
    requires Run(states, labels) && Inv(states[0]) && Exclusive(states[0].rec) && NoFailure(labels) && i < |states|
    ensures Exclusive(states[i].rec)
    ensures forall a, b :: states[i].rec.kernelDnat[a] > 0 && states[i].rec.kernelDnat[b] > 0 && a.station == b.station ==> a == b
  {
    RunKeeps(states, labels, i);
    if i > 0 {
      RunExclusive(states, labels, i - 1);
      RunKeeps(states, labels, i - 1);
      StepExclusive(states[i - 1], labels[i - 1]);
    }
  }

  lemma ApplyExclusive(s: State, out: Out)
    requires Exclusive(s.rec)
    ensures Exclusive(Apply(s, out).rec)
  {
    TouchEachRec(s, out.touched);
  }

  lemma InputExclusive(s: State, l: Label)
    requires Possible(s, l) && Exclusive(s.rec) && (l.HeardL? || l.DriveL? || l.DisconnectedL? || l.ConfigL?)
    ensures Exclusive(Next(s, l).rec)
  {
    match l
    case HeardL(ip, team) => ApplyExclusive(s, Heard(s.env, s.own, ip, team));
    case DriveL(ip, station) => ApplyExclusive(s, Drive(s.env, s.own, ip, station));
    case DisconnectedL(ip) => ApplyExclusive(s, Disconnected(s.env, s.own, ip));
    case ConfigL(config, gone, listed) =>
      var s' := s.(env := s.env.(config := config));
      ApplyExclusive(s', ConfigChanged(s'.env, s.own, gone, listed));
  }

  lemma SweepExclusive(s: State)
    requires Exclusive(s.rec)
    ensures Exclusive(ApplySweep(s).rec)
  {
    ApplyExclusive(s, Sweep(s.env, s.own));
  }

  lemma OtherExclusive(s: State, l: Label)
    requires Possible(s, l) && Exclusive(s.rec) && (l.FlushL? || l.ClockL? || l.RouteL? || l.AdvanceL?)
    ensures Exclusive(Next(s, l).rec)
  {
    hide RoutesOf;
    if l.AdvanceL? {
      assert Advance(s.rec, Demand(s.env.config, s.own)).installedDnat == s.rec.installedDnat;
    }
  }

  lemma StepExclusive(s: State, l: Label)
    requires Inv(s) && Possible(s, l) && Exclusive(s.rec) && (l.WorkL? ==> l.ok)
    ensures Exclusive(Next(s, l).rec)
  {
    match l
    case HeardL(_, _) => InputExclusive(s, l);
    case DriveL(_, _) => InputExclusive(s, l);
    case DisconnectedL(_) => InputExclusive(s, l);
    case ConfigL(_, _, _) => InputExclusive(s, l);
    case SweepL => SweepExclusive(s);
    case WorkL(item, _) => WorkExclusive(s.rec, item);
    case _ => OtherExclusive(s, l);
  }

  // ── Drivers ───────────────────────────────────────────────────────

  function Actor(l: Label): Option<Ip> {
    match l
    case HeardL(ip, _) => Some(ip)
    case DriveL(ip, _) => Some(ip)
    case _ => None
  }

  /** No step takes a robot that is still on the field from a laptop that is
      actively driving it, unless that laptop itself acts. */
  lemma ActiveDriverStays(s: State, l: Label, robot: Robot)
    requires Inv(s) && Possible(s, l)
    requires robot in s.own.sessions && !Stale(s.env, s.own, s.own.sessions[robot]) && Actor(l) != Some(s.own.sessions[robot])
    requires OnField(Next(s, l).env.config, robot)
    ensures robot in Next(s, l).own.sessions && Next(s, l).own.sessions[robot] == s.own.sessions[robot]
  {
    hide RecOk, Told, Current, Shown, RequestSync;
    match l
    case HeardL(ip, team) =>
      HeardOwned(s.env, s.own, ip, team);
      HeardTold(s.env, s.own, ip, team);
      ApplyOk(s, Heard(s.env, s.own, ip, team));
    case DriveL(ip, station) =>
      DriveOwned(s.env, s.own, ip, station);
      DriveTold(s.env, s.own, ip, station);
      ApplyOk(s, Drive(s.env, s.own, ip, station));
    case DisconnectedL(ip) =>
      DisconnectedOwned(s.env, s.own, ip);
      LiftTold(s.own, ip, set r | r in s.own.blocked && Free(s.env, s.own, r));
      ApplyOk(s, Disconnected(s.env, s.own, ip));
    case ConfigL(config, gone, listed) =>
      var s' := s.(env := s.env.(config := config));
      ConfigChangedOwned(s'.env, s.own, gone, listed);
      ConfigChangedTold(s'.env, s.own, gone, listed);
      ApplyOk(s', ConfigChanged(s'.env, s.own, gone, listed));
    case SweepL =>
      SweepOwned(s.env, s.own);
    case _ =>
  }

  // ── How a run begins ──────────────────────────────────────────────

  function Started(env: Env, dnat: multiset<DnatRule>, blocks: multiset<BlockRule>, routes: map<Ip, Station>): State {
    State(env, NOBODY, map[], Rec(map[], {}, {}, dnat, blocks, routes, None, false, Want({}, {}), true, {}))
  }

  lemma FreshStart(env: Env, routes: map<Ip, Station>)
    requires ConfigOk(env.config)
    ensures Inv(Started(env, multiset{}, multiset{}, routes))
  {
  }

  lemma {:induction false} AdoptedCounts(dnat: seq<DnatRule>)
    ensures Counts(AdoptedRules(map[], dnat), multiset(dnat))
  {
    if dnat != [] {
      var front, last := dnat[..|dnat| - 1], dnat[|dnat| - 1];
      AdoptedCounts(front);
      assert dnat == front + [last];
    }
  }

  predicate NoRepeat(blocks: seq<BlockRule>) {
    forall i, j :: 0 <= i < j < |blocks| ==> blocks[i] != blocks[j]
  }

  lemma {:induction false} NoRepeatCounts(blocks: seq<BlockRule>)
    ensures NoRepeat(blocks) <==> forall b :: multiset(blocks)[b] <= 1
  {
    if blocks != [] {
      var front, last := blocks[..|blocks| - 1], blocks[|blocks| - 1];
      NoRepeatCounts(front);
      assert blocks == front + [last];
      assert multiset(blocks) == multiset(front) + multiset{last};
      if NoRepeat(blocks) {
        assert last !in front;
      } else if NoRepeat(front) {
        var i :| 0 <= i < |front| && blocks[i] == last;
        assert front[i] == last && last in multiset(front);
        assert multiset(blocks)[last] >= 2;
      } else {
        var b :| multiset(front)[b] > 1;
        assert multiset(blocks)[b] > 1;
      }
    }
  }

  /** After a restart that found `dnat` and `blocks` in the kernel everything
      above holds exactly when the adopted rules name different laptops and no
      block rule was found twice: copies are counted for DNAT rules only. */
  lemma RestartIff(env: Env, routes: map<Ip, Station>, dnat: seq<DnatRule>, blocks: seq<BlockRule>)
    requires ConfigOk(env.config)
    ensures var s := Restore(Started(env, multiset(dnat), multiset(blocks), routes), dnat, blocks);
      Inv(s) <==> DistinctLaptops(env, dnat) && NoRepeat(blocks)
  {
    var s0 := Started(env, multiset(dnat), multiset(blocks), routes);
    var s := Restore(s0, dnat, blocks);
    var o := AdoptAll(env, NOBODY, dnat);
    AdoptAllShape(env, dnat);
    RestoreOwnedIffDistinct(env, dnat);
    AdoptedCounts(dnat);
    NoRepeatCounts(blocks);
    assert s.own == o && s.rec.installedBlocks == (set b | b in blocks);
    assert forall b :: b in s.rec.installedBlocks <==> multiset(blocks)[b] > 0;
    assert CountsOnce(s.rec.installedBlocks, s.rec.kernelBlocks) <==> NoRepeat(blocks);
    if DistinctLaptops(env, dnat) && NoRepeat(blocks) {
      DemandOk(env.config, o);
      BeginOk(s0.rec.(installedDnat := AdoptedRules(map[], dnat), installedBlocks := s.rec.installedBlocks), Demand(env.config, o));
    }
  }
}
