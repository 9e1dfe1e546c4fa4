/** The leaderboard of challenge runs, read back from the match history. */
module Leaderboard {
  import opened Field

  datatype Timing = Window | Stopwatch | Relay

  /** What an alliance's tally scores, once penalties are in. No time is a run
      that never finished. */
  datatype Score = Score(alliance: Alliance, laps: int, seconds: Option<real>)

  datatype Entrant = Entrant(alliance: Alliance, team: Team)

  datatype Match = Match(timing: Option<Timing>, entrants: seq<Entrant>, tally: seq<Score>, endedAt: int)

  datatype Run = Run(teams: seq<Team>, laps: int, seconds: Option<real>, at: int)

  /** A team-set's best run, and how many it has had. */
  datatype Row = Row(best: Run, attempts: nat)

  // ── Which of two runs is better ───────────────────────────────────

  predicate CountUp(timing: Timing) { !timing.Window? }

  /** Ties go to whoever did it first, and then to the first of the two. */
  function Better(a: Run, b: Run, timing: Timing): Run {
    if CountUp(timing) then
      if a.seconds.None? then if b.seconds.Some? then b else if a.at <= b.at then a else b
      else if b.seconds.None? then a
      else if a.seconds.value != b.seconds.value then if a.seconds.value < b.seconds.value then a else b
      else if a.at <= b.at then a else b
    else if a.laps != b.laps then if a.laps > b.laps then a else b
    else if a.at <= b.at then a else b
  }

  /** Said outright: a finished run beats one that is not, the faster the
      slower; against the clock of a window, more laps beat fewer; and of what
      is level, the earlier. */
  predicate Beats(a: Run, b: Run, timing: Timing) {
    if CountUp(timing) then
      || (a.seconds.Some? && b.seconds.None?)
      || (a.seconds.Some? && b.seconds.Some? && a.seconds.value < b.seconds.value)
      || (a.seconds == b.seconds && a.at < b.at)
    else a.laps > b.laps || (a.laps == b.laps && a.at < b.at)
  }

  predicate Ties(a: Run, b: Run, timing: Timing) { !Beats(a, b, timing) && !Beats(b, a, timing) }

  lemma BeatsIsOrder(a: Run, b: Run, c: Run, timing: Timing)
    ensures !(Beats(a, b, timing) && Beats(b, a, timing))
    ensures Beats(a, b, timing) && !Beats(c, b, timing) ==> Beats(a, c, timing)
    ensures !Beats(b, a, timing) && !Beats(c, b, timing) ==> !Beats(c, a, timing)
  {
  }

  /** The better of two is one of them, and neither beats it; if they tie, it
      is the first. */
  lemma BetterIs(a: Run, b: Run, timing: Timing)
    ensures Better(a, b, timing) == (if Beats(b, a, timing) then b else a)
  {
  }

  // ── The runs that count ───────────────────────────────────────────

  function Insert(team: Team, teams: seq<Team>): seq<Team> {
    if teams == [] || team <= teams[0] then [team] + teams else [teams[0]] + Insert(team, teams[1..])
  }

  /** A team-set is told by its numbers in order. */
  function InOrder(teams: seq<Team>): seq<Team> {
    if teams == [] then [] else Insert(teams[0], InOrder(teams[1..]))
  }

  ghost predicate Ascending(teams: seq<Team>) {
    forall i: nat, j: nat | i < j < |teams| :: teams[i] <= teams[j]
  }

  ghost predicate NoneBelow(low: Team, teams: seq<Team>) {
    forall i: nat | i < |teams| :: low <= teams[i]
  }

  lemma AscendingOf(low: Team, teams: seq<Team>)
    ensures Ascending([low] + teams) <==> (Ascending(teams) && NoneBelow(low, teams))
  {
    var all := [low] + teams;
    assert all[0] == low;
    if Ascending(all) {
      forall i: nat | i < |teams| ensures low <= teams[i] { assert all[i + 1] == teams[i]; }
      forall i: nat, j: nat | i < j < |teams| ensures teams[i] <= teams[j] {
        assert all[i + 1] == teams[i] && all[j + 1] == teams[j];
      }
    }
  }

  lemma {:induction false} InsertKeeps(team: Team, teams: seq<Team>, low: Team)
    requires Ascending(teams) && NoneBelow(low, teams) && low <= team
    ensures multiset(Insert(team, teams)) == multiset(teams) + multiset{team}
    ensures Ascending(Insert(team, teams)) && NoneBelow(low, Insert(team, teams))
  {
    if teams == [] {
    } else if team <= teams[0] {
      AscendingOf(team, teams);
    } else {
      assert teams == [teams[0]] + teams[1..];
      AscendingOf(teams[0], teams[1..]);
      InsertKeeps(team, teams[1..], teams[0]);
      AscendingOf(teams[0], Insert(team, teams[1..]));
    }
  }

  /** The key spells the teams of the list, each as often as it was listed, in
      order: the order they were entered in is gone. */
  lemma {:induction false} InOrderKeeps(teams: seq<Team>)
    ensures multiset(InOrder(teams)) == multiset(teams) && Ascending(InOrder(teams))
  {
    if teams != [] {
      InOrderKeeps(teams[1..]);
      InsertKeeps(teams[0], InOrder(teams[1..]), 0);
      assert teams == [teams[0]] + teams[1..];
    }
  }

  /** There is only one way to put the same teams in order. */
  lemma {:induction false} OneOrder(a: seq<Team>, b: seq<Team>)
    requires Ascending(a) && Ascending(b) && multiset(a) == multiset(b)
    ensures a == b
  {
    assert |a| == |multiset(a)| == |b|;
    if a != [] {
      LeastFirst(a, b);
      LeastFirst(b, a);
      assert a == [a[0]] + a[1..] && b == [b[0]] + b[1..];
      AscendingOf(a[0], a[1..]);
      AscendingOf(b[0], b[1..]);
      SameTail(a, b);
      OneOrder(a[1..], b[1..]);
    }
  }

  lemma SameTail(a: seq<Team>, b: seq<Team>)
    requires a != [] && b != [] && a[0] == b[0] && multiset(a) == multiset(b)
    ensures multiset(a[1..]) == multiset(b[1..])
  {
    assert a == [a[0]] + a[1..] && b == [b[0]] + b[1..];
    assert multiset(a[1..]) == multiset(a) - multiset{a[0]};
    assert multiset(b[1..]) == multiset(b) - multiset{b[0]};
  }

  lemma LeastFirst(a: seq<Team>, b: seq<Team>)
    requires a != [] && b != [] && Ascending(a) && multiset(a) == multiset(b)
    ensures a[0] <= b[0]
  {
    assert b[0] in multiset(a);
    var i: nat :| i < |a| && a[i] == b[0];
  }

  /** Two line-ups share a row exactly if they are the same teams. */
  lemma SameKeyIff(a: seq<Team>, b: seq<Team>)
    ensures InOrder(a) == InOrder(b) <==> multiset(a) == multiset(b)
  {
    InOrderKeeps(a);
    InOrderKeeps(b);
    if multiset(a) == multiset(b) {
      OneOrder(InOrder(a), InOrder(b));
    }
  }

  function TeamsOn(entrants: seq<Entrant>, side: Alliance): seq<Team> {
    if entrants == [] then []
    else
      var last := entrants[|entrants| - 1];
      TeamsOn(entrants[..|entrants| - 1], side) + if last.alliance == side then [last.team] else []
  }

  function RunOf(score: Score, game: Match): seq<Run> {
    var teams := InOrder(TeamsOn(game.entrants, score.alliance));
    if teams == [] then [] else [Run(teams, score.laps, score.seconds, game.endedAt)]
  }

  function RunsOf(tally: seq<Score>, game: Match): seq<Run> {
    if tally == [] then [] else RunsOf(tally[..|tally| - 1], game) + RunOf(tally[|tally| - 1], game)
  }

  /** The runs one match holds, if it was run in this style. */
  function RunsIn(game: Match, timing: Timing): seq<Run> {
    if game.timing == Some(timing) then RunsOf(game.tally, game) else []
  }

  function Runs(matches: seq<Match>, timing: Timing): seq<Run> {
    if matches == [] then [] else Runs(matches[..|matches| - 1], timing) + RunsIn(matches[|matches| - 1], timing)
  }

  // ── Which runs a history holds ────────────────────────────────────

  /** One tally of one match. */
  datatype Place = Place(game: nat, entry: nat)

  predicate Earlier(p: Place, q: Place) { p.game < q.game || (p.game == q.game && p.entry < q.entry) }

  predicate InHistory(matches: seq<Match>, p: Place) { p.game < |matches| && p.entry < |matches[p.game].tally| }

  ghost predicate Entered(game: Match, side: Alliance) {
    exists i: nat :: i < |game.entrants| && game.entrants[i].alliance == side
  }

  /** The tally is a run of this style: somebody entered on its alliance. */
  ghost predicate IsRun(matches: seq<Match>, timing: Timing, p: Place) {
    && InHistory(matches, p) && matches[p.game].timing == Some(timing)
    && Entered(matches[p.game], matches[p.game].tally[p.entry].alliance)
  }

  /** Where a team was entered on a side. */
  ghost function Entries(entrants: seq<Entrant>, side: Alliance, team: Team): set<nat> {
    set i: nat | i < |entrants| && entrants[i] == Entrant(side, team)
  }

  /** How often it was. */
  ghost function TimesEntered(entrants: seq<Entrant>, side: Alliance, team: Team): nat {
    |Entries(entrants, side, team)|
  }

  /** The run is that of this tally: the teams entered on its alliance, each as
      often as it was, in ascending order, with what the tally scored. */
  ghost predicate RunFrom(run: Run, game: Match, score: Score) {
    && run.laps == score.laps && run.seconds == score.seconds && run.at == game.endedAt
    && Ascending(run.teams)
    && forall team: Team :: multiset(run.teams)[team] == TimesEntered(game.entrants, score.alliance, team)
  }

  lemma EntriesMore(front: seq<Entrant>, last: Entrant, side: Alliance, team: Team)
    ensures var entries := Entries(front, side, team);
            && Entries(front + [last], side, team) == (if last == Entrant(side, team) then entries + {|front|} else entries)
            && |front| !in entries
  {
  }

  lemma {:induction false} TeamsEntered(entrants: seq<Entrant>, side: Alliance, team: Team)
    ensures multiset(TeamsOn(entrants, side))[team] == |Entries(entrants, side, team)|
  {
    hide Entries;
    if entrants == [] {
      assert Entries(entrants, side, team) == {} by { NoEntries(side, team); }
    } else {
      var front, last := entrants[..|entrants| - 1], entrants[|entrants| - 1];
      assert entrants == front + [last];
      TeamsEntered(front, side, team);
      EntriesMore(front, last, side, team);
      assert last == Entrant(last.alliance, last.team);
    }
  }

  lemma NoEntries(side: Alliance, team: Team)
    ensures Entries([], side, team) == {}
  {
  }

  lemma {:induction false} SomeoneEntered(entrants: seq<Entrant>, side: Alliance)
    ensures TeamsOn(entrants, side) != [] <==> exists i: nat :: i < |entrants| && entrants[i].alliance == side
  {
    if entrants != [] {
      var front, last := entrants[..|entrants| - 1], entrants[|entrants| - 1];
      SomeoneEntered(front, side);
      assert entrants == front + [last];
      assert entrants[|front|] == last && forall i: nat :: i < |front| ==> front[i] == entrants[i];
    }
  }

  lemma RunOfTally(game: Match, score: Score)
    ensures Entered(game, score.alliance) ==> |RunOf(score, game)| == 1 && RunFrom(RunOf(score, game)[0], game, score)
    ensures !Entered(game, score.alliance) ==> RunOf(score, game) == []
  {
    var teams := TeamsOn(game.entrants, score.alliance);
    InOrderKeeps(teams);
    SomeoneEntered(game.entrants, score.alliance);
    forall team: Team ensures multiset(InOrder(teams))[team] == TimesEntered(game.entrants, score.alliance, team) {
      TeamsEntered(game.entrants, score.alliance, team);
    }
    assert InOrder(teams) == [] <==> teams == [] by {
      assert |multiset(teams)| == |teams| && |multiset(InOrder(teams))| == |InOrder(teams)|;
    }
  }

  /** These are, in order, the places before `end` that hold runs, and the runs
      they hold. */
  ghost predicate Lists(matches: seq<Match>, timing: Timing, places: seq<Place>, runs: seq<Run>, end: Place) {
    && |places| == |runs|
    && (forall i: nat, j: nat | i < j < |places| :: Earlier(places[i], places[j]))
    && (forall p: Place :: p in places <==> IsRun(matches, timing, p) && Earlier(p, end))
    && (forall i: nat | i < |places| :: InHistory(matches, places[i])
          && RunFrom(runs[i], matches[places[i].game], matches[places[i].game].tally[places[i].entry]))
  }

  lemma ListsOne(matches: seq<Match>, timing: Timing, places: seq<Place>, runs: seq<Run>, end: Place)
    requires InHistory(matches, end) && matches[end.game].timing == Some(timing) && Lists(matches, timing, places, runs, end)
    ensures var more := if IsRun(matches, timing, end) then places + [end] else places;
      Lists(matches, timing, more, runs + RunOf(matches[end.game].tally[end.entry], matches[end.game]), Place(end.game, end.entry + 1))
  {
    hide RunFrom, RunOf;
    var next := Place(end.game, end.entry + 1);
    RunOfTally(matches[end.game], matches[end.game].tally[end.entry]);
    forall p: Place ensures Earlier(p, next) <==> Earlier(p, end) || p == end {}
    if IsRun(matches, timing, end) {
      var more := places + [end];
      forall i: nat, j: nat | i < j < |more| ensures Earlier(more[i], more[j]) {
        if j == |places| { assert more[i] in places; }
      }
    }
  }

  lemma {:induction false} ListsGame(matches: seq<Match>, timing: Timing, places: seq<Place>, runs: seq<Run>, m: nat, k: nat)
    returns (more: seq<Place>)
    requires m < |matches| && k <= |matches[m].tally| && matches[m].timing == Some(timing)
    requires Lists(matches, timing, places, runs, Place(m, 0))
    ensures Lists(matches, timing, more, runs + RunsOf(matches[m].tally[..k], matches[m]), Place(m, k))
  {
    hide Lists, RunOf, IsRun;
    if k == 0 {
      more := places;
      assert runs + RunsOf([], matches[m]) == runs;
    } else {
      var game := matches[m];
      var before := ListsGame(matches, timing, places, runs, m, k - 1);
      var end := Place(m, k - 1);
      ListsOne(matches, timing, before, runs + RunsOf(game.tally[..k - 1], game), end);
      more := if IsRun(matches, timing, end) then before + [end] else before;
      assert game.tally[..k][..k - 1] == game.tally[..k - 1];
      Assoc(runs, RunsOf(game.tally[..k - 1], game), RunOf(game.tally[k - 1], game));
    }
  }

  lemma ListsOn(matches: seq<Match>, timing: Timing, places: seq<Place>, runs: seq<Run>, m: nat)
    requires m < |matches|
    requires if matches[m].timing == Some(timing) then Lists(matches, timing, places, runs, Place(m, |matches[m].tally|))
             else Lists(matches, timing, places, runs, Place(m, 0))
    ensures Lists(matches, timing, places, runs, Place(m + 1, 0))
  {
    hide RunFrom, Entered;
  }

  lemma {:induction false} ListsUpTo(matches: seq<Match>, timing: Timing, m: nat) returns (places: seq<Place>)
    requires m <= |matches|
    ensures Lists(matches, timing, places, Runs(matches[..m], timing), Place(m, 0))
  {
    hide Lists, RunsOf;
    if m == 0 {
      places := [];
      NoneListed(matches, timing);
    } else {
      var game := matches[m - 1];
      places := ListsUpTo(matches, timing, m - 1);
      assert matches[..m][..m - 1] == matches[..m - 1];
      if game.timing == Some(timing) {
        places := ListsGame(matches, timing, places, Runs(matches[..m - 1], timing), m - 1, |game.tally|);
        assert game.tally[..|game.tally|] == game.tally;
      } else {
        assert Runs(matches[..m - 1], timing) + [] == Runs(matches[..m - 1], timing);
      }
      ListsOn(matches, timing, places, Runs(matches[..m], timing), m - 1);
    }
  }

  lemma NoneListed(matches: seq<Match>, timing: Timing)
    ensures Lists(matches, timing, [], [], Place(0, 0))
  {
  }

  /** The runs of a style are those of the tallies of its matches whose
      alliance somebody entered: each once, and in the order of the history. */
  lemma RunsAre(matches: seq<Match>, timing: Timing) returns (places: seq<Place>)
    ensures var runs := Runs(matches, timing);
      && |places| == |runs|
      && (forall i: nat, j: nat | i < j < |places| :: Earlier(places[i], places[j]))
      && (forall p: Place :: p in places <==> IsRun(matches, timing, p))
      && (forall i: nat | i < |places| :: InHistory(matches, places[i])
            && RunFrom(runs[i], matches[places[i].game], matches[places[i].game].tally[places[i].entry]))
  {
    hide RunFrom, Entered, RunsIn;
    places := ListsUpTo(matches, timing, |matches|);
    assert matches[..|matches|] == matches;
    forall p: Place | IsRun(matches, timing, p) ensures Earlier(p, Place(|matches|, 0)) {}
  }

  // ── One row per team-set ──────────────────────────────────────────

  function RowOf(table: seq<Row>, teams: seq<Team>): (k: Option<nat>)
    ensures k.Some? ==> k.value < |table| && table[k.value].best.teams == teams
    ensures k.None? ==> forall i: nat | i < |table| :: table[i].best.teams != teams
  {
    if table == [] then None
    else if table[|table| - 1].best.teams == teams then Some(|table| - 1)
    else RowOf(table[..|table| - 1], teams)
  }

  function Tallied(table: seq<Row>, run: Run, timing: Timing): seq<Row> {
    var k := RowOf(table, run.teams);
    if k.None? then table + [Row(run, 1)]
    else table[k.value := Row(Better(table[k.value].best, run, timing), table[k.value].attempts + 1)]
  }

  function Table(runs: seq<Run>, timing: Timing): seq<Row> {
    if runs == [] then [] else Tallied(Table(runs[..|runs| - 1], timing), runs[|runs| - 1], timing)
  }

  function CountOf(runs: seq<Run>, teams: seq<Team>): nat {
    if runs == [] then 0 else CountOf(runs[..|runs| - 1], teams) + if runs[|runs| - 1].teams == teams then 1 else 0
  }

  ghost function RunsOfTeams(runs: seq<Run>, teams: seq<Team>): set<nat> { set i: nat | i < |runs| && runs[i].teams == teams }

  lemma OneRunMore(front: seq<Run>, run: Run, teams: seq<Team>)
    ensures var at := RunsOfTeams(front, teams);
            |front| !in at && RunsOfTeams(front + [run], teams) == if run.teams == teams then at + {|front|} else at
  {
  }

  lemma {:induction false} CountIs(runs: seq<Run>, teams: seq<Team>)
    ensures CountOf(runs, teams) == |RunsOfTeams(runs, teams)|
  {
    if runs == [] {
      assert RunsOfTeams([], teams) == {};
    } else {
      var front, last := runs[..|runs| - 1], runs[|runs| - 1];
      CountIs(front, teams);
      OneRunMore(front, last, teams);
      assert runs == front + [last];
    }
  }

  function Attempts(table: seq<Row>): nat {
    if table == [] then 0 else Attempts(table[..|table| - 1]) + table[|table| - 1].attempts
  }

  /** A row is a best run of its team-set, and counts them all. */
  ghost predicate RightRow(row: Row, runs: seq<Run>, timing: Timing) {
    && row.best in runs && row.attempts == CountOf(runs, row.best.teams)
    && forall r | r in runs && r.teams == row.best.teams :: !Beats(r, row.best, timing)
  }

  ghost predicate RightTable(table: seq<Row>, runs: seq<Run>, timing: Timing) {
    && (forall row | row in table :: RightRow(row, runs, timing))
    && (forall i: nat, j: nat | i < j < |table| :: table[i].best.teams != table[j].best.teams)
    && (forall r | r in runs :: exists row :: row in table && row.best.teams == r.teams)
    && Attempts(table) == |runs|
  }

  lemma RowStaysRight(row: Row, runs: seq<Run>, run: Run, timing: Timing)
    requires RightRow(row, runs, timing) && row.best.teams != run.teams
    ensures RightRow(row, runs + [run], timing)
  {
  }

  lemma RowTallied(row: Row, runs: seq<Run>, run: Run, timing: Timing)
    requires RightRow(row, runs, timing) && row.best.teams == run.teams
    ensures RightRow(Row(Better(row.best, run, timing), row.attempts + 1), runs + [run], timing)
  {
  }

  lemma {:induction false} FirstCount(runs: seq<Run>, teams: seq<Team>)
    requires forall r | r in runs :: r.teams != teams
    ensures CountOf(runs, teams) == 0
  {
    if runs != [] {
      assert runs[|runs| - 1] in runs;
      FirstCount(runs[..|runs| - 1], teams);
    }
  }

  lemma {:induction false} AttemptsChanged(table: seq<Row>, k: nat, row: Row)
    requires k < |table| && row.attempts == table[k].attempts + 1
    ensures Attempts(table[k := row]) == Attempts(table) + 1
  {
    var n := |table| - 1;
    if k < n {
      assert table[k := row][..n] == table[..n][k := row];
      AttemptsChanged(table[..n], k, row);
    } else {
      assert table[k := row][..n] == table[..n];
    }
  }

  lemma AttemptsGrow(table: seq<Row>, row: Row)
    ensures Attempts(table + [row]) == Attempts(table) + row.attempts
  {
  }

  lemma FirstRow(runs: seq<Run>, run: Run, timing: Timing)
    requires forall r | r in runs :: r.teams != run.teams
    ensures RightRow(Row(run, 1), runs + [run], timing)
  {
    assert (runs + [run])[..|runs|] == runs;
    FirstCount(runs, run.teams);
    BeatsIsOrder(run, run, run, timing);
    assert (runs + [run])[|runs|] == run;
  }

  lemma NewRow(table: seq<Row>, runs: seq<Run>, run: Run, timing: Timing)
    requires RightTable(table, runs, timing) && RowOf(table, run.teams).None?
    ensures RightTable(table + [Row(run, 1)], runs + [run], timing)
  {
    hide RightRow, Attempts, RowOf;
    var more, all := table + [Row(run, 1)], runs + [run];
    forall r | r in runs ensures r.teams != run.teams {
      var row :| row in table && row.best.teams == r.teams;
      var i: nat :| i < |table| && table[i] == row;
    }
    FirstRow(runs, run, timing);
    AttemptsGrow(table, Row(run, 1));
    forall row | row in more ensures RightRow(row, all, timing) {
      if row in table {
        var i: nat :| i < |table| && table[i] == row;
        RowStaysRight(row, runs, run, timing);
      }
    }
    forall r | r in all ensures exists row :: row in more && row.best.teams == r.teams {
      if r in runs {
        var row :| row in table && row.best.teams == r.teams;
        assert row in more;
      } else {
        assert more[|table|] in more;
      }
    }
  }

  lemma BetterRow(table: seq<Row>, runs: seq<Run>, run: Run, timing: Timing, k: nat)
    requires RightTable(table, runs, timing) && k < |table| && table[k].best.teams == run.teams
    ensures RightTable(table[k := Row(Better(table[k].best, run, timing), table[k].attempts + 1)], runs + [run], timing)
  {
    hide RightRow;
    var row := Row(Better(table[k].best, run, timing), table[k].attempts + 1);
    var next, all := table[k := row], runs + [run];
    assert row.best.teams == run.teams;
    AttemptsChanged(table, k, row);
    assert table[k] in table;
    RowTallied(table[k], runs, run, timing);
    forall other | other in next ensures RightRow(other, all, timing) {
      var i: nat :| i < |next| && next[i] == other;
      if i != k {
        assert table[i] in table;
        RowStaysRight(table[i], runs, run, timing);
      }
    }
    forall r | r in all ensures exists other :: other in next && other.best.teams == r.teams {
      if r.teams == run.teams {
        assert next[k] in next;
      } else {
        var other :| other in table && other.best.teams == r.teams;
        var i: nat :| i < |table| && table[i] == other;
        assert next[i] == other;
      }
    }
  }

  /** Every team-set with a run has one row: a best run of it, and their count;
      the rows together count every run. */
  lemma {:induction false} TableIsRight(runs: seq<Run>, timing: Timing)
    ensures RightTable(Table(runs, timing), runs, timing)
  {
    hide RightTable;
    if runs == [] {
      EmptyTable(timing);
    } else {
      var front, run := runs[..|runs| - 1], runs[|runs| - 1];
      var table := Table(front, timing);
      TableIsRight(front, timing);
      assert front + [run] == runs;
      var k := RowOf(table, run.teams);
      if k.None? {
        NewRow(table, front, run, timing);
      } else {
        BetterRow(table, front, run, timing, k.value);
      }
    }
  }

  lemma EmptyTable(timing: Timing)
    ensures RightTable([], [], timing)
  {
  }

  // ── Ranked ────────────────────────────────────────────────────────

  /** A row goes in front of the first row that does not beat it. */
  function Ranked(row: Row, board: seq<Row>, timing: Timing): seq<Row> {
    if board == [] || !Beats(board[0].best, row.best, timing) then [row] + board
    else [board[0]] + Ranked(row, board[1..], timing)
  }

  function Sorted(table: seq<Row>, timing: Timing): seq<Row> {
    if table == [] then [] else Ranked(table[0], Sorted(table[1..], timing), timing)
  }

  /** No row beats one above it. */
  ghost predicate InRank(board: seq<Row>, timing: Timing) {
    forall i: nat, j: nat | i < j < |board| :: !Beats(board[j].best, board[i].best, timing)
  }

  ghost predicate NoneBeats(top: Row, board: seq<Row>, timing: Timing) {
    forall i: nat | i < |board| :: !Beats(board[i].best, top.best, timing)
  }

  lemma InRankOf(top: Row, board: seq<Row>, timing: Timing)
    ensures InRank([top] + board, timing) <==> (InRank(board, timing) && NoneBeats(top, board, timing))
  {
    hide Beats;
    var all := [top] + board;
    assert all[0] == top;
    if InRank(all, timing) {
      forall i: nat | i < |board| ensures !Beats(board[i].best, top.best, timing) { assert all[i + 1] == board[i]; }
      forall i: nat, j: nat | i < j < |board| ensures !Beats(board[j].best, board[i].best, timing) {
        assert all[i + 1] == board[i] && all[j + 1] == board[j];
      }
    }
  }

  lemma NoneBeatsOf(top: Row, next: Row, board: seq<Row>, timing: Timing)
    requires !Beats(next.best, top.best, timing) && NoneBeats(next, board, timing)
    ensures NoneBeats(top, [next] + board, timing)
  {
  }

  lemma {:induction false} RankedMoves(row: Row, board: seq<Row>, timing: Timing)
    ensures multiset(Ranked(row, board, timing)) == multiset(board) + multiset{row}
  {
    hide Beats;
    if board != [] {
      assert board == [board[0]] + board[1..];
      RankedMoves(row, board[1..], timing);
    }
  }

  lemma {:induction false} RankedUnder(top: Row, row: Row, board: seq<Row>, timing: Timing)
    requires NoneBeats(top, board, timing) && !Beats(row.best, top.best, timing)
    ensures NoneBeats(top, Ranked(row, board, timing), timing)
  {
    hide Beats;
    forall r | r in board ensures !Beats(r.best, top.best, timing) {
      var i: nat :| i < |board| && board[i] == r;
    }
    RankedMoves(row, board, timing);
    var next := Ranked(row, board, timing);
    forall i: nat | i < |next| ensures !Beats(next[i].best, top.best, timing) {
      assert next[i] in multiset(next);
      assert next[i] == row || next[i] in board;
    }
  }

  lemma {:induction false} RankedKeeps(row: Row, board: seq<Row>, timing: Timing)
    requires InRank(board, timing)
    ensures InRank(Ranked(row, board, timing), timing)
  {
    hide Beats, InRank, NoneBeats;
    if board == [] {
      InRankOfOne(row, board, timing);
    } else {
      var next, rest := board[0], board[1..];
      assert board == [next] + rest;
      InRankOf(next, rest, timing);
      if Beats(next.best, row.best, timing) {
        RankedKeeps(row, rest, timing);
        BeatsIsOrder(next.best, row.best, row.best, timing);
        RankedUnder(next, row, rest, timing);
        InRankOf(next, Ranked(row, rest, timing), timing);
      } else {
        NoneBeatsOf(row, next, rest, timing);
        InRankOf(row, board, timing);
      }
    }
  }

  lemma InRankOfOne(row: Row, board: seq<Row>, timing: Timing)
    requires board == []
    ensures InRank([row] + board, timing)
  {
  }

  /** Ranking moves rows and changes none, and leaves no row above one that
      beats it. */
  lemma {:induction false} SortedIs(table: seq<Row>, timing: Timing)
    ensures multiset(Sorted(table, timing)) == multiset(table) && InRank(Sorted(table, timing), timing)
  {
    if table != [] {
      SortedIs(table[1..], timing);
      RankedMoves(table[0], Sorted(table[1..], timing), timing);
      RankedKeeps(table[0], Sorted(table[1..], timing), timing);
      assert table == [table[0]] + table[1..];
    }
  }

  function Board(matches: seq<Match>, timing: Timing): seq<Row> {
    Sorted(Table(Runs(matches, timing), timing), timing)
  }

  /** The board is right: its rows are the table's, no row beats one above it,
      and in the styles that count up every unfinished run is below every
      finished one. */
  lemma BoardIsRight(matches: seq<Match>, timing: Timing)
    ensures var board, runs := Board(matches, timing), Runs(matches, timing);
      && multiset(board) == multiset(Table(runs, timing))
      && (forall row | row in board :: RightRow(row, runs, timing))
      && (forall run | run in runs :: exists row :: row in board && row.best.teams == run.teams)
      && InRank(board, timing)
      && (forall i: nat, j: nat | i < j < |board| && CountUp(timing) && board[i].best.seconds.None? :: board[j].best.seconds.None?)
  {
    hide RightRow, Table, Runs;
    var board, runs := Board(matches, timing), Runs(matches, timing);
    var table := Table(runs, timing);
    TableIsRight(runs, timing);
    SortedIs(table, timing);
    forall row | row in board ensures RightRow(row, runs, timing) { assert row in multiset(table); }
    forall run | run in runs ensures exists row :: row in board && row.best.teams == run.teams {
      var row :| row in table && row.best.teams == run.teams;
      assert row in multiset(board);
    }
  }

  // ── The order of history does not matter, but for exact ties ──────

  lemma {:induction false} CountWithout(runs: seq<Run>, k: nat, teams: seq<Team>)
    requires k < |runs|
    ensures CountOf(runs, teams) == CountOf(runs[..k] + runs[k + 1..], teams) + if runs[k].teams == teams then 1 else 0
  {
    var n := |runs| - 1;
    if k == n {
      assert runs[..k] + runs[k + 1..] == runs[..n];
    } else {
      CountWithout(runs[..n], k, teams);
      WithoutEnd(runs, k);
    }
  }

  lemma Without<T>(s: seq<T>, k: nat)
    requires k < |s|
    ensures multiset(s[..k] + s[k + 1..]) == multiset(s) - multiset{s[k]}
  {
    assert s == s[..k] + [s[k]] + s[k + 1..];
  }

  lemma SameWithout<T>(a: seq<T>, n: nat, b: seq<T>, k: nat)
    requires n < |a| && k < |b| && a[n] == b[k] && multiset(a) == multiset(b)
    ensures multiset(a[..n] + a[n + 1..]) == multiset(b[..k] + b[k + 1..])
  {
    Without(a, n);
    Without(b, k);
  }

  lemma {:induction false} CountPermuted(a: seq<Run>, b: seq<Run>, teams: seq<Team>)
    requires multiset(a) == multiset(b)
    ensures CountOf(a, teams) == CountOf(b, teams)
  {
    assert |a| == |multiset(a)| == |b|;
    if a != [] {
      var n := |a| - 1;
      assert a[n] in multiset(b);
      var k: nat :| k < |b| && b[k] == a[n];
      SameWithout(a, n, b, k);
      assert a[..n] + a[n + 1..] == a[..n];
      CountWithout(b, k, teams);
      CountPermuted(a[..n], b[..k] + b[k + 1..], teams);
    }
  }

  lemma RunsEnd(matches: seq<Match>, timing: Timing)
    requires matches != []
    ensures multiset(Runs(matches, timing))
      == multiset(Runs(matches[..|matches| - 1], timing)) + multiset(RunsIn(matches[|matches| - 1], timing))
  {
  }

  lemma WithoutEnd<T>(s: seq<T>, k: nat)
    requires k < |s| - 1
    ensures var less, n := s[..k] + s[k + 1..], |s| - 1;
      && less != [] && less[|less| - 1] == s[n] && less[..|less| - 1] == s[..n][..k] + s[..n][k + 1..]
  {
  }

  lemma {:induction false} RunsWithout(matches: seq<Match>, k: nat, timing: Timing)
    requires k < |matches|
    ensures multiset(Runs(matches, timing))
      == multiset(Runs(matches[..k] + matches[k + 1..], timing)) + multiset(RunsIn(matches[k], timing))
  {
    hide RunsIn, Runs;
    var n := |matches| - 1;
    RunsEnd(matches, timing);
    if k == n {
      assert matches[..k] + matches[k + 1..] == matches[..n];
    } else {
      RunsWithout(matches[..n], k, timing);
      WithoutEnd(matches, k);
      RunsEnd(matches[..k] + matches[k + 1..], timing);
    }
  }

  lemma {:induction false} RunsPermuted(a: seq<Match>, b: seq<Match>, timing: Timing)
    requires multiset(a) == multiset(b)
    ensures multiset(Runs(a, timing)) == multiset(Runs(b, timing))
  {
    hide RunsIn, Runs;
    assert |a| == |multiset(a)| == |b|;
    if a == [] {
    } else {
      var n := |a| - 1;
      assert a[n] in multiset(b);
      var k: nat :| k < |b| && b[k] == a[n];
      SameWithout(a, n, b, k);
      assert a[..n] + a[n + 1..] == a[..n];
      RunsEnd(a, timing);
      RunsWithout(b, k, timing);
      RunsPermuted(a[..n], b[..k] + b[k + 1..], timing);
    }
  }

  /** Two rows say the same of a team-set, up to which of two tied runs is
      shown. */
  ghost predicate Agree(a: Row, b: Row, timing: Timing) {
    a.best.teams == b.best.teams && a.attempts == b.attempts && Ties(a.best, b.best, timing)
  }

  lemma RowsAgree(a: Row, b: Row, av: seq<Run>, bs: seq<Run>, timing: Timing)
    requires multiset(av) == multiset(bs) && a.best.teams == b.best.teams
    requires RightRow(a, av, timing) && RightRow(b, bs, timing)
    ensures Agree(a, b, timing)
  {
    CountPermuted(av, bs, a.best.teams);
    assert a.best in multiset(bs) && b.best in multiset(av);
  }

  /** However history is reordered, every row has one in the other board that
      agrees with it. */
  lemma HistoryPermuted(a: seq<Match>, b: seq<Match>, timing: Timing)
    requires multiset(a) == multiset(b)
    ensures forall row | row in Board(a, timing) :: exists other :: other in Board(b, timing) && Agree(row, other, timing)
  {
    hide Board, RightRow, Runs, Agree, InRank;
    BoardIsRight(a, timing);
    BoardIsRight(b, timing);
    RunsPermuted(a, b, timing);
    forall row | row in Board(a, timing)
      ensures exists other :: other in Board(b, timing) && Agree(row, other, timing)
    {
      RightRowShows(row, Runs(a, timing), timing);
      assert row.best in multiset(Runs(b, timing));
      var other :| other in Board(b, timing) && other.best.teams == row.best.teams;
      RowsAgree(row, other, Runs(a, timing), Runs(b, timing), timing);
    }
  }

  lemma RightRowShows(row: Row, runs: seq<Run>, timing: Timing)
    requires RightRow(row, runs, timing)
    ensures row.best in runs
  {
  }

  /** And two team-sets swap places only if their best runs tie exactly. */
  lemma OnlyTiesSwap(a: seq<Match>, b: seq<Match>, timing: Timing, i: nat, j: nat, k: nat, l: nat)
    requires multiset(a) == multiset(b)
    requires i < j < |Board(a, timing)| && k < l < |Board(b, timing)|
    requires Board(a, timing)[i].best.teams == Board(b, timing)[l].best.teams
    requires Board(a, timing)[j].best.teams == Board(b, timing)[k].best.teams
    ensures Ties(Board(a, timing)[i].best, Board(a, timing)[j].best, timing)
  {
    hide Board, RightRow, Runs;
    BoardIsRight(a, timing);
    BoardIsRight(b, timing);
    RunsPermuted(a, b, timing);
    var av, bs := Board(a, timing), Board(b, timing);
    assert av[i] in av && av[j] in av && bs[k] in bs && bs[l] in bs;
    RowsAgree(av[i], bs[l], Runs(a, timing), Runs(b, timing), timing);
    RowsAgree(av[j], bs[k], Runs(a, timing), Runs(b, timing), timing);
  }

  // ── As the loops build it ─────────────────────────────────────────

  lemma TableGrows(runs: seq<Run>, run: Run, timing: Timing)
    ensures Table(runs + [run], timing) == Tallied(Table(runs, timing), run, timing)
  {
  }

  lemma RunsGrow(matches: seq<Match>, m: nat, timing: Timing)
    requires m < |matches|
    ensures Runs(matches[..m + 1], timing) == Runs(matches[..m], timing) + RunsIn(matches[m], timing)
  {
    assert matches[..m + 1][..m] == matches[..m];
  }

  lemma RunsOfGrow(tally: seq<Score>, k: nat, game: Match)
    requires k < |tally|
    ensures RunsOf(tally[..k + 1], game) == RunsOf(tally[..k], game) + RunOf(tally[k], game)
  {
    assert tally[..k + 1][..k] == tally[..k];
  }

  /** One attempt goes into the map of best attempts. */
  method Count(table: seq<Row>, attempt: Run, timing: Timing) returns (next: seq<Row>)
    ensures next == Tallied(table, attempt, timing)
  {
    hide Better;
    var row := RowOf(table, attempt.teams);
    if row.None? {
      next := table + [Row(attempt, 1)];
    } else {
      var best := table[row.value];
      next := table[row.value := Row(Better(best.best, attempt, timing), best.attempts + 1)];
    }
  }

  method LeaderboardRows(matches: seq<Match>, timing: Timing) returns (board: seq<Row>)
    ensures board == Board(matches, timing)
  {
    hide Runs, RunsOf, Table, Tallied, InOrder, Sorted;
    var table: seq<Row> := [];
    NoRuns(timing);
    assert matches[..0] == [];
    for m := 0 to |matches|
      invariant table == Table(Runs(matches[..m], timing), timing)
    {
      ghost var earlier := Runs(matches[..m], timing);
      RunsGrow(matches, m, timing);
      if matches[m].timing != Some(timing) {
        assert earlier + [] == earlier;
        continue;
      }
      table := CountMatch(matches[m], earlier, table, timing);
    }
    assert matches[..|matches|] == matches;
    board := Sorted(table, timing);
  }

  lemma NoRuns(timing: Timing)
    ensures Table(Runs([], timing), timing) == []
  {
  }

  lemma NoTally(game: Match)
    ensures RunsOf([], game) == []
  {
  }

  /** The inner loop, over the alliances of one match's tally. */
  method CountMatch(game: Match, ghost earlier: seq<Run>, before: seq<Row>, timing: Timing) returns (table: seq<Row>)
    requires before == Table(earlier, timing)
    ensures table == Table(earlier + RunsOf(game.tally, game), timing)
  {
    hide Runs, RunsOf, Table, Tallied, InOrder;
    table := before;
    NoTally(game);
    assert game.tally[..0] == [] && earlier + [] == earlier;
    for k := 0 to |game.tally|
      invariant table == Table(earlier + RunsOf(game.tally[..k], game), timing)
    {
      ghost var sofar := earlier + RunsOf(game.tally[..k], game);
      RunsOfGrow(game.tally, k, game);
      Assoc(earlier, RunsOf(game.tally[..k], game), RunOf(game.tally[k], game));
      var teams := InOrder(TeamsOn(game.entrants, game.tally[k].alliance));
      if teams == [] {
        assert sofar + [] == sofar;
        continue;
      }
      var attempt := Run(teams, game.tally[k].laps, game.tally[k].seconds, game.endedAt);
      TableGrows(sofar, attempt, timing);
      table := Count(table, attempt, timing);
    }
    assert game.tally[..|game.tally|] == game.tally;
  }
}
