/** The reconciler: however its passes interleave with the inputs, what it
    records is what the kernel holds, and what it leaves installed is what the
    sessions ask for. */
module DriveReconciler {
  import opened Field
  import opened DriveState
  import opened DriveOwnership

  // ── What a pass has achieved ──────────────────────────────────────

  /** Rules asked for together never share a slot or a laptop. */
  ghost predicate WantOk(want: Want) {
    && (forall a, b :: a in want.dnat && b in want.dnat && a.station == b.station ==> a == b)
    && (forall a, b :: a in want.dnat && b in want.dnat && a.dsIp == b.dsIp ==> a == b)
  }

  /** The kernel holds each recorded rule in the recorded number of copies. */
  ghost predicate Counts(installed: map<DnatRule, nat>, table: multiset<DnatRule>) {
    && (forall rule :: table[rule] == if rule in installed then installed[rule] else 0)
    && (forall rule :: rule in installed ==> installed[rule] > 0)
  }

  ghost predicate CountsOnce(installed: set<BlockRule>, table: multiset<BlockRule>) {
    forall b :: table[b] == if b in installed then 1 else 0
  }

  /** The records, copies included, describe the kernel tables. */
  ghost predicate Exact(r: Rec) { Counts(r.installedDnat, r.kernelDnat) && CountsOnce(r.installedBlocks, r.kernelBlocks) }

  function Order(stage: Stage): nat {
    match stage
    case DroppingDnat => 0
    case DroppingBlocks => 1
    case DroppingRoutes => 2
    case PuttingDnat => 3
    case PuttingBlocks => 4
    case PuttingRoutes => 5
  }

  /** What is left to do belongs to the current stage. */
  ghost predicate TodoOk(r: Rec, p: Pass) {
    forall item :: item in p.todo ==>
      match item
      case DropDnat(rule, copies) => p.stage.DroppingDnat? && (rule in r.installedDnat ==> r.installedDnat[rule] == copies)
      case DropBlock(b) => p.stage.DroppingBlocks?
      case DropRoute(ip) => p.stage.DroppingRoutes?
      case PutDnat(rule) => p.stage.PuttingDnat? && rule in p.want.dnat
      case PutBlock(b) => p.stage.PuttingBlocks? && b in p.want.blocks
      case PutRoute(rule) => p.stage.PuttingRoutes? && rule in p.want.dnat
  }

  /** Nothing unwanted is left, but for what is still to be dropped. */
  ghost predicate Dropped(r: Rec, p: Pass) {
    && (forall rule | rule in r.installedDnat && rule !in p.want.dnat ::
          p.stage.DroppingDnat? && DropDnat(rule, r.installedDnat[rule]) in p.todo)
    && (Order(p.stage) >= 1 ==>
          forall b | b in r.installedBlocks && b !in p.want.blocks :: p.stage.DroppingBlocks? && DropBlock(b) in p.todo)
    && (Order(p.stage) >= 2 ==>
          forall ip | ip in r.routed && ip !in RoutesOf(p.want) :: p.stage.DroppingRoutes? && DropRoute(ip) in p.todo)
  }

  ghost predicate Routed(r: Rec, rule: DnatRule) {
    rule.dsIp in r.routed
    && (rule.dsIp in r.disturbed || (rule.dsIp in r.routes && r.routes[rule.dsIp] == rule.station))
  }

  /** Everything wanted is there, but for what is still to be put. */
  ghost predicate Put(r: Rec, p: Pass) {
    && (Order(p.stage) >= 3 ==>
          forall rule | rule in p.want.dnat && rule !in r.installedDnat :: p.stage.PuttingDnat? && PutDnat(rule) in p.todo)
    && (Order(p.stage) >= 4 ==>
          forall b | b in p.want.blocks && b !in r.installedBlocks :: p.stage.PuttingBlocks? && PutBlock(b) in p.todo)
    && (Order(p.stage) >= 5 ==>
          forall rule | rule in p.want.dnat && !Routed(r, rule) :: p.stage.PuttingRoutes? && PutRoute(rule) in p.todo)
  }

  /** The kernel holds exactly what `want` asks for. */
  ghost predicate Serves(r: Rec, want: Want) {
    && r.installedDnat.Keys == want.dnat
    && r.installedBlocks == want.blocks
    && r.routed == RoutesOf(want)
    && (forall rule :: rule in want.dnat ==> Routed(r, rule))
  }

  ghost predicate PassOk(r: Rec, p: Pass) {
    WantOk(p.want) && TodoOk(r, p) && (p.ok ==> Dropped(r, p)) && (p.ok && !r.again ==> Put(r, p))
  }

  ghost predicate RecOk(r: Rec) {
    && Exact(r)
    && (r.pass.Some? ==> PassOk(r, r.pass.value))
    && (r.pass.None? ==> !r.again && (r.servedOk ==> Serves(r, r.served)))
  }

  // ── A pass, step by step ──────────────────────────────────────────

  lemma WorkExactDnat(r: Rec, item: Item, ok: bool)
    requires r.pass.Some? && item in r.pass.value.todo
    requires Counts(r.installedDnat, r.kernelDnat) && TodoOk(r, r.pass.value)
    ensures Counts(Work(r, item, ok).installedDnat, Work(r, item, ok).kernelDnat)
  {
  }

  lemma WorkExactBlocks(r: Rec, item: Item, ok: bool)
    requires r.pass.Some? && item in r.pass.value.todo && CountsOnce(r.installedBlocks, r.kernelBlocks)
    ensures CountsOnce(Work(r, item, ok).installedBlocks, Work(r, item, ok).kernelBlocks)
  {
  }

  lemma DropDnatKeepsPass(r: Rec, rule: DnatRule, copies: nat, ok: bool)
    requires r.pass.Some? && DropDnat(rule, copies) in r.pass.value.todo && PassOk(r, r.pass.value)
    ensures PassOk(Work(r, DropDnat(rule, copies), ok), Work(r, DropDnat(rule, copies), ok).pass.value)
  {
  }

  lemma DropBlockKeepsPass(r: Rec, block: BlockRule, ok: bool)
    requires r.pass.Some? && DropBlock(block) in r.pass.value.todo && PassOk(r, r.pass.value)
    ensures PassOk(Work(r, DropBlock(block), ok), Work(r, DropBlock(block), ok).pass.value)
  {
  }

  lemma DropRouteKeepsPass(r: Rec, ip: Ip, ok: bool)
    requires r.pass.Some? && DropRoute(ip) in r.pass.value.todo && PassOk(r, r.pass.value)
    ensures PassOk(Work(r, DropRoute(ip), ok), Work(r, DropRoute(ip), ok).pass.value)
  {
  }

  lemma PutDnatKeepsPass(r: Rec, rule: DnatRule, ok: bool)
    requires r.pass.Some? && PutDnat(rule) in r.pass.value.todo && PassOk(r, r.pass.value)
    ensures PassOk(Work(r, PutDnat(rule), ok), Work(r, PutDnat(rule), ok).pass.value)
  {
  }

  lemma PutBlockKeepsPass(r: Rec, block: BlockRule, ok: bool)
    requires r.pass.Some? && PutBlock(block) in r.pass.value.todo && PassOk(r, r.pass.value)
    ensures PassOk(Work(r, PutBlock(block), ok), Work(r, PutBlock(block), ok).pass.value)
  {
  }

  lemma PutRouteKeepsRoutes(r: Rec, rule: DnatRule, ok: bool)
    requires r.pass.Some? && PutRoute(rule) in r.pass.value.todo && WantOk(r.pass.value.want)
    requires rule in r.pass.value.want.dnat
    ensures forall other | other in r.pass.value.want.dnat && other != rule && Routed(r, other) :: Routed(Work(r, PutRoute(rule), ok), other)
    ensures Work(r, PutRoute(rule), ok).pass.value.ok ==> Routed(Work(r, PutRoute(rule), ok), rule)
  {
  }

  lemma PutRouteKeepsPass(r: Rec, rule: DnatRule, ok: bool)
    requires r.pass.Some? && PutRoute(rule) in r.pass.value.todo && PassOk(r, r.pass.value)
    ensures PassOk(Work(r, PutRoute(rule), ok), Work(r, PutRoute(rule), ok).pass.value)
  {
    var p := r.pass.value;
    var r' := Work(r, PutRoute(rule), ok);
    var p' := r'.pass.value;
    PutRouteKeepsRoutes(r, rule, ok);
    assert TodoOk(r', p');
    assert rule.dsIp in RoutesOf(p.want);
    assert p.ok ==> Dropped(r', p');
  }

  lemma WorkFrame(r: Rec, item: Item, ok: bool)
    requires r.pass.Some? && item in r.pass.value.todo
    ensures Work(r, item, ok).again == r.again && Work(r, item, ok).pass.Some?
    ensures Work(r, item, ok).pass.value.want == r.pass.value.want
    ensures Work(r, item, ok).pass.value.stage == r.pass.value.stage
    ensures Work(r, item, ok).pass.value.todo == r.pass.value.todo - {item}
  {
  }

  lemma WorkOk(r: Rec, item: Item, ok: bool)
    requires RecOk(r) && r.pass.Some? && item in r.pass.value.todo
    ensures RecOk(Work(r, item, ok))
  {
    WorkExactDnat(r, item, ok);
    WorkExactBlocks(r, item, ok);
    match item
    case DropDnat(rule, copies) => DropDnatKeepsPass(r, rule, copies, ok);
    case DropBlock(block) => DropBlockKeepsPass(r, block, ok);
    case DropRoute(ip) => DropRouteKeepsPass(r, ip, ok);
    case PutDnat(rule) => PutDnatKeepsPass(r, rule, ok);
    case PutBlock(block) => PutBlockKeepsPass(r, block, ok);
    case PutRoute(rule) => PutRouteKeepsPass(r, rule, ok);
  }

  lemma BeginOk(r: Rec, want: Want)
    requires Exact(r) && WantOk(want)
    ensures RecOk(BeginPass(r, want))
  {
  }

  lemma NextDropStageOk(r: Rec, demand: Want)
    requires r.pass.Some? && r.pass.value.todo == {} && PassOk(r, r.pass.value)
    requires r.pass.value.stage.DroppingDnat? || r.pass.value.stage.DroppingBlocks?
    ensures PassOk(Advance(r, demand), Advance(r, demand).pass.value)
  {
  }

  lemma NextPutStageOk(r: Rec, demand: Want)
    requires r.pass.Some? && r.pass.value.todo == {} && PassOk(r, r.pass.value)
    requires r.pass.value.stage.DroppingRoutes? || r.pass.value.stage.PuttingDnat? || r.pass.value.stage.PuttingBlocks?
    ensures PassOk(Advance(r, demand), Advance(r, demand).pass.value)
  {
  }

  /** A last stage with nothing left and no failure has put everything. */
  lemma FinishedServes(r: Rec)
    requires r.pass.Some? && PassOk(r, r.pass.value) && r.pass.value.ok && !r.again
    requires r.pass.value.stage.PuttingRoutes? && r.pass.value.todo == {}
    ensures Serves(r, r.pass.value.want)
  {
  }

  lemma AdvanceOk(r: Rec, demand: Want)
    requires RecOk(r) && r.pass.Some? && r.pass.value.todo == {} && WantOk(demand)
    ensures RecOk(Advance(r, demand))
  {
    var p := r.pass.value;
    match p.stage
    case DroppingDnat => NextDropStageOk(r, demand);
    case DroppingBlocks => NextDropStageOk(r, demand);
    case DroppingRoutes => NextPutStageOk(r, demand);
    case PuttingDnat => NextPutStageOk(r, demand);
    case PuttingBlocks => NextPutStageOk(r, demand);
    case PuttingRoutes =>
      if r.again {
        BeginOk(r, demand);
      } else if p.ok {
        FinishedServes(r);
        assert Serves(Advance(r, demand), p.want) by {
          assert forall rule :: Routed(r, rule) ==> Routed(Advance(r, demand), rule);
        }
      }
  }

  lemma RequestOk(r: Rec, want: Want)
    requires RecOk(r) && WantOk(want)
    ensures RecOk(RequestSync(r, want))
  {
  }

  lemma RouteMovedOk(r: Rec, ip: Ip, to: Option<Station>)
    requires RecOk(r)
    ensures RecOk(RouteMoved(r, ip, to))
  {
    var r' := RouteMoved(r, ip, to);
    assert forall rule :: Routed(r, rule) ==> Routed(r', rule);
  }
}
