/** The match over wall-clock time: a compacted log of the engine's broadcasts,
    and whether a goal counted at some instant. Times are in milliseconds. */
module Timeline {
  import opened Field
  import opened EngineState

  // ── Shifts ────────────────────────────────────────────────────────

  const GRACE: real := 3000.0
  const TRANSITION: real := 10.0
  const SHIFT: real := 25.0

  /** The alliance whose goal is off, by the shift of teleop it is. */
  function InactiveGoal(phase: Phase, remaining: real, teleop: real, winner: Option<Alliance>): Option<Alliance> {
    var elapsed := teleop - remaining - TRANSITION;
    if winner.None? || !phase.Teleop? || elapsed < 0.0 then None
    else if elapsed < SHIFT then winner
    else if elapsed < 2.0 * SHIFT then Some(Other(winner.value))
    else if elapsed < 3.0 * SHIFT then winner
    else if elapsed < 4.0 * SHIFT then Some(Other(winner.value))
    else None
  }

  // ── Samples and moments ───────────────────────────────────────────

  datatype MatchState = MatchState(phase: Phase, remaining: real, awaitingWinner: bool, winner: Option<Alliance>,
                                   pausedFrom: Option<Phase>, config: Option<Config>)

  datatype Sample = Sample(at: real, phase: Phase, gamePhase: Phase, remaining: real, frozen: bool, winner: Option<Alliance>,
                           config: Option<Config>, phaseStartedAt: real)

  datatype Moment = Moment(at: real, phase: Phase, gamePhase: Phase, remaining: real, winner: Option<Alliance>, config: Option<Config>,
                           inactiveGoal: Option<Alliance>, phaseStartedAt: real)

  datatype Verdict = Active | Grace | Inactive | OutsideMatch

  function NonNegative(x: real): real { if x < 0.0 then 0.0 else x }

  function Later(a: real, b: real): real { if a < b then b else a }

  predicate PreMatch(phase: Phase) { phase.Idle? || phase.Created? || phase.Countdown? }

  predicate TimerTransition(from: Phase, to: Phase) {
    match from
    case Countdown => to.Auto? || to.Teleop?
    case Auto => to.AutoPause? || to.Teleop?
    case AutoPause => to.Teleop?
    case Teleop => to.Endgame? || to.PostMatch?
    case Endgame => to.PostMatch?
    case _ => false
  }

  predicate Frozen(st: MatchState) {
    st.phase.Paused? || (st.phase.AutoPause? && st.awaitingWinner) || st.phase.Idle? || st.phase.Created?
  }

  /** What a sample says of an instant from its own on. */
  function MomentOf(s: Sample, t: real): Moment {
    var remaining := if s.frozen then s.remaining else NonNegative(s.remaining - (t - s.at) / 1000.0);
    var shifts := s.config.Some? && s.config.value.challenge.None?;
    Moment(t, s.phase, s.gamePhase, remaining, s.winner, s.config,
           if shifts then InactiveGoal(s.gamePhase, remaining, s.config.value.teleopDuration, s.winner) else None, s.phaseStartedAt)
  }

  /** The last sample of a log that is not after `t`. */
  function Covering(log: seq<Sample>, t: real): Option<Sample> {
    if log == [] then None
    else if log[|log| - 1].at <= t then Some(log[|log| - 1])
    else Covering(log[..|log| - 1], t)
  }

  function MomentAt(log: seq<Sample>, t: real): Option<Moment> {
    var s := Covering(log, t);
    if s.None? then None else Some(MomentOf(s.value, t))
  }

  // ── Recording ─────────────────────────────────────────────────────

  function Last(log: seq<Sample>): Option<Sample> { if log == [] then None else Some(log[|log| - 1]) }

  /** A new match: the history of the one before is no longer needed. */
  predicate Clears(last: Option<Sample>, phase: Phase) {
    phase.Countdown? && (last.None? || (PreMatch(last.value.phase) && !last.value.phase.Countdown?))
  }

  function Threshold(last: Sample, phase: Phase): real {
    if last.phase.Teleop? && phase.Endgame? && last.config.Some? then last.config.value.endgameDuration else 0.0
  }

  /** When the clock of `last` ran down to where `phase` begins. */
  function Expected(last: Sample, phase: Phase): real { last.at + NonNegative(last.remaining - Threshold(last, phase)) * 1000.0 }

  /** Whether the change of phase is one the clock made before the broadcast
      that tells of it. */
  predicate BackDated(last: Option<Sample>, phase: Phase, now: real) {
    && last.Some? && last.value.phase != phase && !last.value.frozen && TimerTransition(last.value.phase, phase)
    && Expected(last.value, phase) < now
  }

  function InstantOf(last: Option<Sample>, phase: Phase, now: real): real {
    var at := if BackDated(last, phase, now) then Later(last.value.at, Expected(last.value, phase)) else now;
    if last.Some? then Later(last.value.at, at) else at
  }

  function StartOf(last: Option<Sample>, phase: Phase, now: real): real {
    if last.Some? && last.value.phase == phase then last.value.phaseStartedAt
    else if BackDated(last, phase, now) then Later(last.value.at, Expected(last.value, phase))
    else now
  }

  function GamePhase(last: Option<Sample>, st: MatchState): Phase {
    if !st.phase.Paused? then st.phase
    else if st.pausedFrom.Some? then st.pausedFrom.value
    else if last.Some? then last.value.gamePhase
    else Teleop
  }

  function Sampled(last: Option<Sample>, st: MatchState, now: real): Sample {
    Sample(InstantOf(last, st.phase, now), st.phase, GamePhase(last, st), NonNegative(st.remaining), Frozen(st), st.winner, st.config,
           StartOf(last, st.phase, now))
  }

  /** Nothing is moving, and the last sample said as much. */
  predicate Collapses(last: Option<Sample>, st: MatchState) {
    last.Some? && last.value.phase == st.phase && last.value.frozen && Frozen(st) && last.value.winner == st.winner
  }

  function Kept(log: seq<Sample>, phase: Phase): seq<Sample> { if Clears(Last(log), phase) then [] else log }

  /** Every broadcast in a sample of its own. */
  function Naive(log: seq<Sample>, st: MatchState, now: real): seq<Sample> {
    var kept := Kept(log, st.phase);
    kept + [Sampled(Last(kept), st, now)]
  }

  /** The log that is kept: a repeated frozen sample takes the place, and the
      instant, of the one before it. */
  function Recorded(log: seq<Sample>, st: MatchState, now: real): seq<Sample> {
    var kept := Kept(log, st.phase);
    var last := Last(kept);
    if Collapses(last, st) then kept[..|kept| - 1] + [Sampled(last, st, now).(at := last.value.at)]
    else kept + [Sampled(last, st, now)]
  }

  // ── The order of the log ──────────────────────────────────────────

  ghost predicate Sorted(log: seq<Sample>) {
    forall i: nat, j: nat | i < j < |log| :: log[i].at <= log[j].at
  }

  ghost predicate StartsBefore(log: seq<Sample>) { forall s | s in log :: s.phaseStartedAt <= s.at }

  /** Recording keeps the log in order, whatever the clock does. */
  lemma RecordKeepsOrder(log: seq<Sample>, st: MatchState, now: real)
    requires Sorted(log) && StartsBefore(log)
    ensures Sorted(Recorded(log, st, now)) && StartsBefore(Recorded(log, st, now))
  {
    var kept := Kept(log, st.phase);
    var last := Last(kept);
    var s := Sampled(last, st, now);
    if last.Some? {
      assert last.value in log;
    }
    AppendOrder(kept, s);
    if Collapses(last, st) {
      AppendOrder(kept[..|kept| - 1], s.(at := last.value.at));
    }
  }

  lemma AppendOrder(log: seq<Sample>, s: Sample)
    requires Sorted(log) && StartsBefore(log)
    ensures log == [] || log[|log| - 1].at <= s.at ==> Sorted(log + [s])
    ensures s.phaseStartedAt <= s.at ==> StartsBefore(log + [s])
  {
  }

  // ── Binary search ─────────────────────────────────────────────────

  lemma {:induction false} CoveringIs(log: seq<Sample>, t: real, k: nat)
    requires Sorted(log) && k < |log| && log[k].at <= t && (forall j: nat | k < j < |log| :: log[j].at > t)
    ensures Covering(log, t) == Some(log[k])
    decreases |log|
  {
    if k < |log| - 1 {
      CoveringIs(log[..|log| - 1], t, k);
    }
  }

  lemma {:induction false} CoveringNone(log: seq<Sample>, t: real)
    requires forall s | s in log :: s.at > t
    ensures Covering(log, t) == None
  {
    if log != [] {
      assert log[|log| - 1] in log;
      CoveringNone(log[..|log| - 1], t);
    }
  }

  class MatchTimeline {
    var samples: seq<Sample>

    ghost predicate Valid()
      reads this
    {
      Sorted(samples) && StartsBefore(samples)
    }

    constructor ()
      ensures Valid() && samples == []
    {
      samples := [];
    }

    method Record(st: MatchState, now: real)
      requires Valid()
      modifies this
      ensures Valid() && samples == Recorded(old(samples), st, now)
    {
      RecordKeepsOrder(samples, st, now);
      if Clears(Last(samples), st.phase) {
        samples := [];
      }
      var last := Last(samples);
      var frozen := Frozen(st);
      var at, phaseStartedAt := now, now;
      if last.Some? && last.value.phase == st.phase {
        phaseStartedAt := last.value.phaseStartedAt;
        if last.value.frozen && frozen && last.value.winner == st.winner {
          samples := samples[..|samples| - 1];
          at := last.value.at;
        }
      } else if last.Some? && !last.value.frozen && TimerTransition(last.value.phase, st.phase) {
        var expected := Expected(last.value, st.phase);
        if expected < now {
          at := Later(last.value.at, expected);
          phaseStartedAt := at;
        }
      }
      if last.Some? && at < last.value.at {
        at := last.value.at;
      }
      samples := samples + [Sample(at, st.phase, GamePhase(last, st), NonNegative(st.remaining), frozen, st.winner, st.config, phaseStartedAt)];
    }

    method SampleAtOrBefore(t: real) returns (s: Option<Sample>)
      requires Valid()
      ensures s == Covering(samples, t)
    {
      if samples == [] || samples[0].at > t {
        CoveringNone(samples, t);
        return None;
      }
      var lo, hi := 0, |samples| - 1;
      while lo < hi
        invariant 0 <= lo <= hi < |samples| && samples[lo].at <= t
        invariant forall j: nat | hi < j < |samples| :: samples[j].at > t
      {
        var mid := (lo + hi + 1) / 2;
        if samples[mid].at <= t {
          lo := mid;
        } else {
          hi := mid - 1;
        }
      }
      CoveringIs(samples, t, lo);
      return Some(samples[lo]);
    }

    method At(t: real) returns (m: Option<Moment>)
      requires Valid()
      ensures m == MomentAt(samples, t)
    {
      var s := SampleAtOrBefore(t);
      return if s.None? then None else Some(MomentOf(s.value, t));
    }

    method ClassifyGoal(a: Alliance, t: real) returns (v: Option<Verdict>)
      requires Valid()
      ensures v == Classified(samples, a, t)
    {
      var m := At(t);
      if m.None? {
        return None;
      }
      if PreMatch(m.value.phase) {
        return Some(OutsideMatch);
      }
      if !GoalOff(a, m.value) {
        return Some(Active);
      }
      var before := At(t - GRACE);
      return Some(if before.Some? && !PreMatch(before.value.phase) && GoalOff(a, before.value) then Inactive else Grace);
    }
  }

  // ── Goals ─────────────────────────────────────────────────────────

  predicate GoalOff(a: Alliance, m: Moment) { m.phase.Paused? || m.inactiveGoal == Some(a) }

  /** The match is on, and so is the goal, or not. */
  predicate OffAt(log: seq<Sample>, a: Alliance, t: real) {
    MomentAt(log, t).Some? && !PreMatch(MomentAt(log, t).value.phase) && GoalOff(a, MomentAt(log, t).value)
  }

  predicate OnAt(log: seq<Sample>, a: Alliance, t: real) {
    MomentAt(log, t).Some? && !PreMatch(MomentAt(log, t).value.phase) && !GoalOff(a, MomentAt(log, t).value)
  }

  function Classified(log: seq<Sample>, a: Alliance, t: real): Option<Verdict> {
    var m := MomentAt(log, t);
    if m.None? then None
    else if PreMatch(m.value.phase) then Some(OutsideMatch)
    else if !GoalOff(a, m.value) then Some(Active)
    else if OffAt(log, a, t - GRACE) then Some(Inactive)
    else Some(Grace)
  }

  /** A goal that was on for three seconds and turns off at `u` counts as in
      grace for three seconds, and as off from then on, for as long as it
      stays off: across whatever samples and interpolated clocks lie between. */
  lemma GraceWindow(log: seq<Sample>, a: Alliance, u: real, v: real)
    requires forall t: real | u - GRACE <= t < u :: OnAt(log, a, t)
    requires forall t: real | u <= t <= v :: OffAt(log, a, t)
    ensures forall t: real | u - GRACE <= t < u :: Classified(log, a, t) == Some(Active)
    ensures forall t: real | u <= t <= v :: Classified(log, a, t) == Some(if t < u + GRACE then Grace else Inactive)
  {
    hide MomentAt;
    forall t: real | u - GRACE <= t < u ensures Classified(log, a, t) == Some(Active) {
      assert OnAt(log, a, t);
    }
    forall t: real | u <= t <= v ensures Classified(log, a, t) == Some(if t < u + GRACE then Grace else Inactive) {
      assert OffAt(log, a, t);
      if t < u + GRACE {
        assert OnAt(log, a, t - GRACE);
      } else {
        assert OffAt(log, a, t - GRACE);
      }
    }
  }

  // ── A whole teleop ────────────────────────────────────────────────

  /** When a goal is off, in seconds of teleop: the winner's in the first and
      third shift, the other's in the second and fourth. */
  predicate OffBy(a: Alliance, winner: Alliance, seconds: real) {
    if a == winner then 10.0 <= seconds < 35.0 || 60.0 <= seconds < 85.0
    else 35.0 <= seconds < 60.0 || 85.0 <= seconds < 110.0
  }

  /** The verdict on a score that many seconds into teleop. */
  function VerdictBy(a: Alliance, winner: Alliance, seconds: real): Verdict {
    if !OffBy(a, winner, seconds) then Active
    else if (if a == winner then 13.0 <= seconds < 35.0 || 63.0 <= seconds < 85.0 else 38.0 <= seconds < 60.0 || 88.0 <= seconds < 110.0)
    then Inactive
    else Grace
  }

  datatype Course = Course(start: real, config: Config, winner: Alliance)

  function LeftAt(c: Course, t: real): real { c.config.teleopDuration - (t - c.start) / 1000.0 }

  /** A broadcast of this teleop, whose clock runs as the time does. */
  predicate Tells(c: Course, st: MatchState, now: real) {
    && st.phase.Teleop? && st.winner == Some(c.winner) && st.config == Some(c.config) && c.config.challenge.None?
    && st.remaining == LeftAt(c, now) && st.remaining >= 0.0
  }

  predicate OfCourse(c: Course, s: Sample) {
    && s.phase.Teleop? && s.gamePhase.Teleop? && !s.frozen && s.winner == Some(c.winner) && s.config == Some(c.config)
    && c.config.challenge.None? && s.at >= c.start && s.remaining == LeftAt(c, s.at) && s.remaining >= 0.0
  }

  /** From its sample `k` on, the log is of this teleop, from its start. */
  ghost predicate LogsCourse(log: seq<Sample>, k: nat, c: Course) {
    && k < |log| && Sorted(log) && log[k].at == c.start && forall i: nat | k <= i < |log| :: OfCourse(c, log[i])
  }

  lemma {:induction false} CoursePoint(log: seq<Sample>, k: nat, c: Course, t: real)
    requires LogsCourse(log, k, c) && c.start <= t
    ensures var s := Covering(log, t); s.Some? && OfCourse(c, s.value) && s.value.at <= t
    decreases |log|
  {
    hide OfCourse;
    var n := |log| - 1;
    if log[n].at > t {
      LogsCourseFront(log, k, c);
      CoursePoint(log[..n], k, c, t);
    }
  }

  lemma LogsCourseFront(log: seq<Sample>, k: nat, c: Course)
    requires LogsCourse(log, k, c) && k < |log| - 1
    ensures LogsCourse(log[..|log| - 1], k, c)
  {
    hide OfCourse;
  }

  /** At each instant of it the clock, and so the goals, are what the time
      since its start makes them. */
  lemma CourseMoment(log: seq<Sample>, k: nat, c: Course, a: Alliance, t: real)
    requires LogsCourse(log, k, c) && c.start <= t && LeftAt(c, t) >= 0.0
    ensures var m := MomentAt(log, t);
      && m.Some? && m.value.phase.Teleop? && m.value.remaining == LeftAt(c, t)
      && (GoalOff(a, m.value) <==> OffBy(a, c.winner, (t - c.start) / 1000.0))
  {
    hide LogsCourse, Covering;
    CoursePoint(log, k, c, t);
  }

  /** And so is the verdict on a score, three seconds of grace included. */
  lemma CourseVerdict(log: seq<Sample>, k: nat, c: Course, a: Alliance, t: real)
    requires LogsCourse(log, k, c) && c.start <= t && LeftAt(c, t) >= 0.0
    ensures Classified(log, a, t) == Some(VerdictBy(a, c.winner, (t - c.start) / 1000.0))
  {
    hide LogsCourse, MomentAt, GoalOff;
    CourseMoment(log, k, c, a, t);
    if OffBy(a, c.winner, (t - c.start) / 1000.0) {
      CourseMoment(log, k, c, a, t - GRACE);
    }
  }

  lemma CourseGoesOn(log: seq<Sample>, k: nat, c: Course, st: MatchState, now: real)
    requires LogsCourse(log, k, c) && Tells(c, st, now) && log[|log| - 1].at <= now
    ensures LogsCourse(Recorded(log, st, now), k, c) && Recorded(log, st, now)[|Recorded(log, st, now)| - 1].at == now
  {
    var last := log[|log| - 1];
    assert OfCourse(c, last);
    assert Recorded(log, st, now) == log + [Sampled(Some(last), st, now)];
    assert OfCourse(c, Sampled(Some(last), st, now));
  }

  function RecordOnto(log: seq<Sample>, run: seq<Heard>): seq<Sample> {
    if run == [] then log else Recorded(RecordOnto(log, run[..|run| - 1]), run[|run| - 1].st, run[|run| - 1].now)
  }

  lemma {:induction false} CourseRecorded(log: seq<Sample>, k: nat, c: Course, run: seq<Heard>)
    requires LogsCourse(log, k, c) && Monotone(run)
    requires forall i: nat | i < |run| :: log[|log| - 1].at <= run[i].now && Tells(c, run[i].st, run[i].now)
    ensures LogsCourse(RecordOnto(log, run), k, c)
    ensures var all := RecordOnto(log, run); all[|all| - 1].at == if run == [] then log[|log| - 1].at else run[|run| - 1].now
  {
    hide LogsCourse, Tells, Recorded;
    if run == [] {
      SomeCourse(log, k, c);
    } else {
      var n := |run| - 1;
      CourseRecorded(log, k, c, run[..n]);
      SomeCourse(RecordOnto(log, run[..n]), k, c);
      CourseGoesOn(RecordOnto(log, run[..n]), k, c, run[n].st, run[n].now);
      SomeCourse(RecordOnto(log, run), k, c);
    }
  }

  lemma SomeCourse(log: seq<Sample>, k: nat, c: Course)
    requires LogsCourse(log, k, c)
    ensures log != []
  {
  }

  /** So whatever was broadcast of a teleop and when, every score of it is
      judged by the time since its start alone. */
  lemma TeleopVerdicts(log: seq<Sample>, k: nat, c: Course, run: seq<Heard>, a: Alliance, t: real)
    requires LogsCourse(log, k, c) && Monotone(run)
    requires forall i: nat | i < |run| :: log[|log| - 1].at <= run[i].now && Tells(c, run[i].st, run[i].now)
    requires c.start <= t && LeftAt(c, t) >= 0.0
    ensures Classified(RecordOnto(log, run), a, t) == Some(VerdictBy(a, c.winner, (t - c.start) / 1000.0))
  {
    hide LogsCourse, Tells, Classified, VerdictBy, RecordOnto;
    CourseRecorded(log, k, c, run);
    CourseVerdict(RecordOnto(log, run), k, c, a, t);
  }

  // ── The kept log against the log of every broadcast ───────────────

  datatype Heard = Heard(st: MatchState, now: real)

  /** A repeated frozen broadcast that says nothing new. */
  predicate Repeats(last: Sample, st: MatchState) {
    NonNegative(st.remaining) == last.remaining && st.config == last.config && GamePhase(Some(last), st) == last.gamePhase
  }

  /** The two logs answer alike, and end in the same sample, give or take the
      instant of a frozen one. */
  ghost predicate SameLast(c: Option<Sample>, n: Option<Sample>, now: real) {
    if c.None? then n.None?
    else
      && n.Some? && n.value == c.value.(at := n.value.at) && c.value.at <= n.value.at <= now
      && (!c.value.frozen ==> c.value.at == n.value.at)
  }

  ghost predicate Refines(compact: seq<Sample>, naive: seq<Sample>, now: real) {
    (forall t: real :: MomentAt(compact, t) == MomentAt(naive, t)) && SameLast(Last(compact), Last(naive), now)
  }

  lemma AppendedAt(log: seq<Sample>, s: Sample, t: real)
    ensures MomentAt(log + [s], t) == if s.at <= t then Some(MomentOf(s, t)) else MomentAt(log, t)
  {
    assert (log + [s])[..|log|] == log;
  }

  lemma SameSample(c: Option<Sample>, n: Option<Sample>, st: MatchState, before: real, now: real)
    requires SameLast(c, n, before) && before <= now
    ensures Collapses(c, st) == Collapses(n, st)
    ensures !Collapses(c, st) ==> Sampled(c, st, now) == Sampled(n, st, now)
    ensures c.Some? && c.value.phase == st.phase ==> Sampled(n, st, now).at == now
    ensures Sampled(c, st, now).at <= now && Sampled(n, st, now).at <= now
    ensures c.Some? && Collapses(c, st) && Repeats(c.value, st) ==> Sampled(n, st, now) == c.value.(at := now)
  {
  }

  lemma KeptRefines(compact: seq<Sample>, naive: seq<Sample>, phase: Phase, now: real)
    requires Refines(compact, naive, now)
    ensures Refines(Kept(compact, phase), Kept(naive, phase), now)
  {
    hide MomentAt;
  }

  lemma FrozenCovers(log: seq<Sample>, s: Sample, t: real)
    requires log != [] && log[|log| - 1].frozen && log[|log| - 1].at <= t
    requires s == log[|log| - 1].(at := s.at)
    ensures MomentAt(log, t) == Some(MomentOf(s, t))
  {
  }

  /** One broadcast, in both logs. */
  lemma StepRefines(compact: seq<Sample>, naive: seq<Sample>, st: MatchState, before: real, now: real)
    requires Refines(compact, naive, before) && before <= now && SteadyAt(compact, st)
    ensures Refines(Recorded(compact, st, now), Naive(naive, st, now), now)
  {
    hide MomentAt, Sampled, Collapses, Repeats;
    KeptRefines(compact, naive, st.phase, before);
    var kc, kn := Kept(compact, st.phase), Kept(naive, st.phase);
    var c, n := Last(kc), Last(kn);
    SameSample(c, n, st, before, now);
    var s := Sampled(n, st, now);
    if Collapses(c, st) {
      CollapseKeeps(kc, st, now);
      CollapsedLast(c, s, now);
      forall t: real ensures MomentAt(kc, t) == MomentAt(kn + [s], t) {
        AppendedAt(kn, s, t);
        if s.at <= t {
          FrozenCovers(kc, s, t);
        }
      }
    } else {
      forall t: real ensures MomentAt(kc + [s], t) == MomentAt(kn + [s], t) {
        AppendedAt(kc, s, t);
        AppendedAt(kn, s, t);
      }
    }
  }

  lemma CollapsedLast(c: Option<Sample>, s: Sample, now: real)
    requires c.Some? && c.value.frozen && c.value.at <= now && s == c.value.(at := now)
    ensures SameLast(c, Some(s), now)
  {
  }

  lemma CollapseKeeps(kept: seq<Sample>, st: MatchState, now: real)
    requires Collapses(Last(kept), st) && Repeats(Last(kept).value, st)
    ensures Recorded(kept, st, now) == Kept(kept, st.phase) && kept != [] && kept[|kept| - 1].frozen
    ensures Kept(kept, st.phase) == kept
  {
    var last := Last(kept).value;
    assert Sampled(Last(kept), st, now).(at := last.at) == last;
    assert kept[..|kept| - 1] + [last] == kept;
  }

  function RecordAll(run: seq<Heard>): seq<Sample> {
    if run == [] then [] else Recorded(RecordAll(run[..|run| - 1]), run[|run| - 1].st, run[|run| - 1].now)
  }

  function NaiveAll(run: seq<Heard>): seq<Sample> {
    if run == [] then [] else Naive(NaiveAll(run[..|run| - 1]), run[|run| - 1].st, run[|run| - 1].now)
  }

  ghost predicate Monotone(run: seq<Heard>) { forall i: nat, j: nat | i < j < |run| :: run[i].now <= run[j].now }

  /** A frozen broadcast that repeats the last one repeats its clock too. */
  ghost predicate SteadyAt(log: seq<Sample>, st: MatchState) {
    var last := Last(Kept(log, st.phase));
    Collapses(last, st) ==> Repeats(last.value, st)
  }

  ghost predicate Steady(run: seq<Heard>) { forall i: nat | i < |run| :: SteadyAt(RecordAll(run[..i]), run[i].st) }

  lemma SteadyPrefix(run: seq<Heard>, n: nat)
    requires n <= |run| && Steady(run)
    ensures Steady(run[..n])
  {
    hide SteadyAt, RecordAll;
    forall i: nat | i < n ensures SteadyAt(RecordAll(run[..n][..i]), run[..n][i].st) {
      assert run[..n][..i] == run[..i];
    }
  }

  lemma {:induction false} RunRefines(run: seq<Heard>)
    requires Monotone(run) && Steady(run)
    ensures run == [] ==> RecordAll(run) == [] && NaiveAll(run) == []
    ensures run != [] ==> Refines(RecordAll(run), NaiveAll(run), run[|run| - 1].now)
  {
    hide Refines, SteadyAt, Recorded, Naive;
    if run != [] {
      var before, last := run[..|run| - 1], run[|run| - 1];
      SteadyPrefix(run, |before|);
      RunRefines(before);
      if before == [] {
        EmptyRefines(last.now);
        StepRefines([], [], last.st, last.now, last.now);
      } else {
        assert run[|before|] == last;
        StepRefines(RecordAll(before), NaiveAll(before), last.st, before[|before| - 1].now, last.now);
      }
    }
  }

  lemma EmptyRefines(now: real)
    ensures Refines([], [], now)
  {
  }

  /** In every run with a clock that does not go back, leaving repeated frozen
      broadcasts out of the log changes no answer about any instant. */
  lemma CompactionIsInvisible(run: seq<Heard>, t: real)
    requires Monotone(run) && Steady(run)
    ensures MomentAt(RecordAll(run), t) == MomentAt(NaiveAll(run), t)
  {
    hide MomentAt;
    RunRefines(run);
  }

  /** A collapse rewrites the past, though, exactly when the new broadcast
      differs from the one whose place it takes. */
  lemma CollapseKeepsPastIff(log: seq<Sample>, st: MatchState, now: real)
    requires Collapses(Last(log), st) && Last(log).value.at < now
    ensures (forall t: real | t < now :: MomentAt(Recorded(log, st, now), t) == MomentAt(log, t))
            <==> Repeats(Last(log).value, st)
  {
    var last := Last(log).value;
    if Repeats(last, st) {
      CollapseKeeps(log, st, now);
    } else {
      hide MomentAt;
      var s := Sampled(Some(last), st, now).(at := last.at);
      AppendedAt(log[..|log| - 1], s, last.at);
      AppendedAt(log[..|log| - 1], last, last.at);
      assert log[..|log| - 1] + [last] == log;
      assert MomentOf(s, last.at) != MomentOf(last, last.at);
    }
  }

  /** The kept log and the full one answer alike at every instant, after every
      broadcast of the run. */
  ghost predicate AlwaysAlike(run: seq<Heard>) {
    forall i: nat, t: real | i <= |run| :: MomentAt(RecordAll(run[..i]), t) == MomentAt(NaiveAll(run[..i]), t)
  }

  ghost predicate Increasing(run: seq<Heard>) { forall i: nat, j: nat | i < j < |run| :: run[i].now < run[j].now }

  /** In a run whose last broadcast is the first to collapse another one, the
      two logs then differ at the instant of the one it replaced. */
  lemma CollapseShows(compact: seq<Sample>, naive: seq<Sample>, st: MatchState, before: real, now: real)
    requires Refines(compact, naive, before) && before < now && !SteadyAt(compact, st)
    ensures exists t: real :: MomentAt(Recorded(compact, st, now), t) != MomentAt(Naive(naive, st, now), t)
  {
    hide MomentAt, Sampled, Repeats;
    var last := Last(compact).value;
    assert Kept(compact, st.phase) == compact && Kept(naive, st.phase) == naive;
    CollapseKeepsPastIff(compact, st, now);
    var t: real :| t < now && MomentAt(Recorded(compact, st, now), t) != MomentAt(compact, t);
    SameSample(Last(compact), Last(naive), st, before, now);
    AppendedAt(naive, Sampled(Last(naive), st, now), t);
    assert MomentAt(Naive(naive, st, now), t) == MomentAt(naive, t);
  }

  lemma {:induction false} UnsteadyShows(run: seq<Heard>)
    requires Increasing(run) && !Steady(run)
    ensures !AlwaysAlike(run)
  {
    hide MomentAt, SteadyAt, RecordAll, NaiveAll, AlwaysAlike;
    var n := |run| - 1;
    assert run != [];
    if Steady(run[..n]) {
      assert !SteadyAt(RecordAll(run[..n]), run[n].st) by {
        OnlyLastUnsteady(run);
      }
      LastShows(run);
    } else {
      UnsteadyShows(run[..n]);
      LongerUnlike(run, n);
    }
  }

  lemma OnlyLastUnsteady(run: seq<Heard>)
    requires run != [] && Steady(run[..|run| - 1]) && !Steady(run)
    ensures !SteadyAt(RecordAll(run[..|run| - 1]), run[|run| - 1].st)
  {
    hide SteadyAt, RecordAll;
    var n := |run| - 1;
    forall i: nat | i < n ensures SteadyAt(RecordAll(run[..i]), run[i].st) {
      assert run[..n][..i] == run[..i] && run[..n][i] == run[i];
    }
  }

  lemma LongerUnlike(run: seq<Heard>, n: nat)
    requires n <= |run| && !AlwaysAlike(run[..n])
    ensures !AlwaysAlike(run)
  {
    hide MomentAt, RecordAll, NaiveAll;
    var i: nat, t: real :| i <= n && MomentAt(RecordAll(run[..n][..i]), t) != MomentAt(NaiveAll(run[..n][..i]), t);
    assert run[..n][..i] == run[..i];
  }

  lemma LastShows(run: seq<Heard>)
    requires run != [] && Increasing(run) && Steady(run[..|run| - 1])
    requires !SteadyAt(RecordAll(run[..|run| - 1]), run[|run| - 1].st)
    ensures !AlwaysAlike(run)
  {
    hide MomentAt, SteadyAt, Recorded, Naive, Refines, Kept;
    var n := |run| - 1;
    var before, last := run[..n], run[n];
    RunRefines(before);
    if before == [] {
      NothingKept(last.st);
    } else {
      CollapseShows(RecordAll(before), NaiveAll(before), last.st, before[n - 1].now, last.now);
      var t: real :| MomentAt(Recorded(RecordAll(before), last.st, last.now), t) != MomentAt(Naive(NaiveAll(before), last.st, last.now), t);
      assert run[..n + 1] == run;
      assert MomentAt(RecordAll(run[..n + 1]), t) != MomentAt(NaiveAll(run[..n + 1]), t);
    }
  }

  lemma NothingKept(st: MatchState)
    ensures SteadyAt(RecordAll([]), st)
  {
  }

  /** Leaving broadcasts out is invisible, at every instant and all through a
      run, exactly if every one that is left out repeats the one it replaces. */
  lemma CompactionIsInvisibleIff(run: seq<Heard>)
    requires Increasing(run)
    ensures AlwaysAlike(run) <==> Steady(run)
  {
    hide MomentAt, RecordAll, NaiveAll, SteadyAt, Steady;
    if Steady(run) {
      forall i: nat, t: real | i <= |run| ensures MomentAt(RecordAll(run[..i]), t) == MomentAt(NaiveAll(run[..i]), t) {
        SteadyPrefix(run, i);
        CompactionIsInvisible(run[..i], t);
      }
    } else {
      UnsteadyShows(run);
    }
  }

  function ConfigAt(log: seq<Sample>, t: real): Option<Config> {
    var m := MomentAt(log, t);
    if m.None? then None else m.value.config
  }

  /** Two broadcasts of a match being set up, and its config edited between
      them: the kept log has the new config from the first one on. */
  lemma SetupEditRewrites(c: Config, d: Config, at: real)
    requires c != d
    ensures var run := [Heard.Heard(MatchState(Created, 0.0, false, None, None, Some(c)), at),
                        Heard.Heard(MatchState(Created, 0.0, false, None, None, Some(d)), at + 1000.0)];
      && Increasing(run) && ConfigAt(RecordAll(run), at) == Some(d) && ConfigAt(NaiveAll(run), at) == Some(c)
  {
    var first, second := Heard.Heard(MatchState(Created, 0.0, false, None, None, Some(c)), at),
                         Heard.Heard(MatchState(Created, 0.0, false, None, None, Some(d)), at + 1000.0);
    var run := [first, second];
    assert run[..1] == [first] && [first][..0] == [];
    assert RecordAll([first]) == [Sampled(None, first.st, at)] && NaiveAll([first]) == [Sampled(None, first.st, at)];
    var one := Sampled(None, first.st, at);
    AppendedAt([one], Sampled(Some(one), second.st, at + 1000.0), at);
    AppendedAt([], one, at);
    assert [one][..0] == [] && [] + [one] == [one];
  }

  // ── Back-dated boundaries ─────────────────────────────────────────

  /** A change of phase the clock made is put where the clock made it: before
      that instant the log shows the old phase with time left, from it on the
      new one, whenever the broadcast came. */
  lemma BoundaryIsBackDated(log: seq<Sample>, st: MatchState, now: real, t: real)
    requires log != [] && !Clears(Last(log), st.phase) && BackDated(Last(log), st.phase, now)
    requires var last := log[|log| - 1]; last.remaining >= Threshold(last, st.phase) >= 0.0 && last.at <= t
    ensures var last := log[|log| - 1];
            var m := MomentAt(Recorded(log, st, now), t);
            && m.Some?
            && (t < Expected(last, st.phase) ==> m.value.phase == last.phase && m.value.remaining > Threshold(last, st.phase))
            && (t >= Expected(last, st.phase) ==> m.value.phase == st.phase && m.value.phaseStartedAt == Expected(last, st.phase))
  {
    hide MomentAt;
    var last := log[|log| - 1];
    AppendedAt(log, Sampled(Some(last), st, now), t);
    AppendedAt(log[..|log| - 1], last, t);
    assert log[..|log| - 1] + [last] == log;
  }

  // ── What one broadcast leaves ─────────────────────────────────────

  /** The steps the clock of a match takes on its own. */
  predicate ClockStep(from: Phase, to: Phase) {
    || (from.Countdown? && (to.Auto? || to.Teleop?)) || (from.Auto? && (to.AutoPause? || to.Teleop?)) || (from.AutoPause? && to.Teleop?)
    || (from.Teleop? && (to.Endgame? || to.PostMatch?)) || (from.Endgame? && to.PostMatch?)
  }

  /** When the clock of the last sample ran down: to the endgame, if that is
      what begins, and to nothing otherwise. */
  function RanDown(last: Sample, to: Phase): real {
    var left := if last.phase.Teleop? && to.Endgame? && last.config.Some? then last.remaining - last.config.value.endgameDuration
                else last.remaining;
    last.at + (if left > 0.0 then left * 1000.0 else 0.0)
  }

  /** A broadcast of a new phase is of an earlier instant exactly if the clock,
      running, has taken that step before now. */
  lemma BackDatedIff(last: Sample, phase: Phase, now: real)
    ensures BackDated(Some(last), phase, now) <==> !last.frozen && ClockStep(last.phase, phase) && RanDown(last, phase) < now
    ensures Expected(last, phase) == RanDown(last, phase)
  {
  }

  /** The broadcast is not of a step the clock may have taken before it. */
  predicate AtOnce(log: seq<Sample>, st: MatchState) {
    Frozen(st) || log == [] || st.phase == log[|log| - 1].phase || !ClockStep(log[|log| - 1].phase, st.phase)
  }

  /** What the log says of the instant of a broadcast is what the broadcast
      said, less the time since the phase began if that was earlier. */
  lemma NowIsAsTold(log: seq<Sample>, st: MatchState, now: real)
    requires Sorted(log) && (log != [] ==> log[|log| - 1].at <= now)
    ensures var m := MomentAt(Recorded(log, st, now), now);
      && m.Some? && m.value.phase == st.phase && m.value.winner == st.winner && m.value.config == st.config
      && (st.phase.Paused? && st.pausedFrom.Some? ==> m.value.gamePhase == st.pausedFrom.value)
      && (!st.phase.Paused? ==> m.value.gamePhase == st.phase)
      && (st.remaining >= 0.0 && AtOnce(log, st) ==> m.value.remaining == st.remaining)
  {
    var kept := Kept(log, st.phase);
    var all := Recorded(log, st, now);
    assert all[|all| - 1].at <= now;
  }

  /** A countdown begins a log of its own, unless it follows one. */
  lemma CountdownForgets(log: seq<Sample>, st: MatchState, now: real)
    requires st.phase.Countdown? && (log != [] ==> log[|log| - 1].phase.Idle? || log[|log| - 1].phase.Created?)
    ensures |Recorded(log, st, now)| == 1
  {
  }
}
