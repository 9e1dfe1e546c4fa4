/** Upcoming matches and the line that fills them. */
module MatchQueue {
  import opened Field

  datatype EntryStatus = Queued | OnDeck | Playing | Played | Skipped

  datatype Source = Schedule | FromLine | Manual

  datatype Entry = Entry(id: string, number: nat, source: Source, red: seq<Team>, blue: seq<Team>, status: EntryStatus)

  /** A team in the line, with the alliance it would rather play on. */
  datatype Waiting = Waiting(team: Team, alliance: Option<Alliance>)

  datatype Shape = Shape(red: nat, blue: nat)

  predicate IsShape(shape: Shape) { shape.red <= 3 && shape.blue <= 3 && shape.red + shape.blue > 0 }

  // ── Forming a match ───────────────────────────────────────────────

  datatype Sides = Sides(red: seq<Team>, blue: seq<Team>)

  const NOBODY: Sides := Sides([], [])

  function Side(s: Sides, a: Alliance): seq<Team> { if a.Red? then s.red else s.blue }

  function Seats(shape: Shape, a: Alliance): nat { if a.Red? then shape.red else shape.blue }

  function Room(shape: Shape, s: Sides, a: Alliance): int { Seats(shape, a) - |Side(s, a)| }

  function Wanted(shape: Shape): nat { shape.red + shape.blue }

  function Count(s: Sides): nat { |s.red| + |s.blue| }

  predicate Plays(s: Sides, team: Team) { team in s.red || team in s.blue }

  function Seat(s: Sides, team: Team, a: Alliance): Sides {
    if a.Red? then s.(red := s.red + [team]) else s.(blue := s.blue + [team])
  }

  /** First those with a preference, while there is room on that side. */
  function Prefer(line: seq<Waiting>, shape: Shape): Sides {
    if line == [] then NOBODY
    else
      var s := Prefer(line[..|line| - 1], shape);
      var l := line[|line| - 1];
      if Count(s) < Wanted(shape) && l.alliance.Some? && Room(shape, s, l.alliance.value) > 0 then Seat(s, l.team, l.alliance.value) else s
  }

  function WiderSide(shape: Shape, s: Sides): Alliance { if Room(shape, s, Red) >= Room(shape, s, Blue) then Red else Blue }

  function TakeIn(shape: Shape, s: Sides, team: Team): Sides {
    if Count(s) >= Wanted(shape) || Plays(s, team) || Room(shape, s, WiderSide(shape, s)) <= 0 then s
    else Seat(s, team, WiderSide(shape, s))
  }

  /** Then everyone else in turn, on the side with more room. */
  function Fill(line: seq<Waiting>, shape: Shape, first: Sides): Sides {
    if line == [] then first else TakeIn(shape, Fill(line[..|line| - 1], shape, first), line[|line| - 1].team)
  }

  function Formed(line: seq<Waiting>, shape: Shape): Sides { Fill(line, shape, Prefer(line, shape)) }

  ghost predicate DistinctTeams(line: seq<Waiting>) {
    forall i: nat, j: nat | i < j < |line| :: line[i].team != line[j].team
  }

  ghost predicate InLine(line: seq<Waiting>, team: Team) { exists i: nat :: i < |line| && line[i].team == team }

  /** Nobody plays twice, nobody plays who is not in line, and no side is
      overfull. */
  ghost predicate WellSeated(line: seq<Waiting>, shape: Shape, s: Sides) {
    && |s.red| <= shape.red && |s.blue| <= shape.blue
    && (forall t: Team | Plays(s, t) :: InLine(line, t))
    && (forall t: Team :: multiset(s.red + s.blue)[t] <= 1)
  }

  lemma SeatCounts(s: Sides, team: Team, a: Alliance)
    ensures var s' := Seat(s, team, a);
            && Count(s') == Count(s) + 1
            && (forall t: Team :: Plays(s', t) <==> t == team || Plays(s, t))
            && multiset(s'.red + s'.blue) == multiset(s.red + s.blue) + multiset{team}
  {
  }

  lemma NotTwice(s: Sides, team: Team)
    ensures multiset(s.red + s.blue)[team] > 0 <==> Plays(s, team)
  {
  }

  lemma LongerLine(line: seq<Waiting>, shape: Shape, s: Sides)
    requires line != [] && WellSeated(line[..|line| - 1], shape, s)
    ensures WellSeated(line, shape, s) && InLine(line, line[|line| - 1].team)
  {
  }

  lemma SeatedToo(line: seq<Waiting>, shape: Shape, s: Sides, team: Team, a: Alliance)
    requires WellSeated(line, shape, s) && !Plays(s, team) && InLine(line, team) && Room(shape, s, a) > 0
    ensures WellSeated(line, shape, Seat(s, team, a))
  {
    SeatCounts(s, team, a);
    NotTwice(s, team);
  }

  lemma InFront(line: seq<Waiting>, team: Team)
    requires line != []
    ensures InLine(line[..|line| - 1], team) <==> exists i: nat :: i < |line| - 1 && line[i].team == team
  {
  }

  lemma LastIsNew(line: seq<Waiting>, s: Sides, shape: Shape)
    requires line != [] && DistinctTeams(line) && WellSeated(line[..|line| - 1], shape, s)
    ensures !Plays(s, line[|line| - 1].team)
  {
  }

  lemma {:induction false} PreferSeats(line: seq<Waiting>, shape: Shape)
    requires DistinctTeams(line)
    ensures WellSeated(line, shape, Prefer(line, shape)) && Count(Prefer(line, shape)) <= |line|
  {
    hide WellSeated;
    if line == [] {
      NobodySeated(shape);
    } else {
      var s := Prefer(line[..|line| - 1], shape);
      PreferSeats(line[..|line| - 1], shape);
      LastIsNew(line, s, shape);
      LongerLine(line, shape, s);
      var l := line[|line| - 1];
      if Count(s) < Wanted(shape) && l.alliance.Some? && Room(shape, s, l.alliance.value) > 0 {
        SeatedToo(line, shape, s, l.team, l.alliance.value);
        SeatCounts(s, l.team, l.alliance.value);
      }
    }
  }

  lemma NobodySeated(shape: Shape)
    ensures WellSeated([], shape, NOBODY)
  {
  }

  /** A second look at a team seats it, unless the match is full. */
  lemma TakenIn(line: seq<Waiting>, shape: Shape, s: Sides, team: Team)
    requires WellSeated(line, shape, s) && InLine(line, team)
    ensures var s' := TakeIn(shape, s, team);
            && WellSeated(line, shape, s') && Count(s) <= Count(s') && (Count(s') >= Wanted(shape) || Plays(s', team))
            && (forall t: Team | Plays(s, t) :: Plays(s', t))
  {
    hide WellSeated, InLine;
    SeatsUsed(line, shape, s);
    SeatCounts(s, team, WiderSide(shape, s));
    if Count(s) < Wanted(shape) && !Plays(s, team) {
      SeatedToo(line, shape, s, team, WiderSide(shape, s));
    }
  }

  /** After `n` teams of the line have been looked at a second time, they all
      play, unless the match is full. */
  lemma {:induction false} FillSeats(line: seq<Waiting>, shape: Shape, n: nat)
    requires DistinctTeams(line) && n <= |line|
    ensures var s := Fill(line[..n], shape, Prefer(line, shape));
            && WellSeated(line, shape, s)
            && (Count(s) >= Wanted(shape) || forall i: nat | i < n :: Plays(s, line[i].team))
  {
    hide WellSeated, TakeIn, Plays, Count, Wanted;
    if n == 0 {
      PreferSeats(line, shape);
      assert line[..0] == [];
    } else {
      FillSeats(line, shape, n - 1);
      assert line[..n][..n - 1] == line[..n - 1];
      assert InLine(line, line[n - 1].team);
      TakenIn(line, shape, Fill(line[..n - 1], shape, Prefer(line, shape)), line[n - 1].team);
    }
  }

  /** While the match is not full, the wider side has room. */
  lemma SeatsUsed(line: seq<Waiting>, shape: Shape, s: Sides)
    requires WellSeated(line, shape, s)
    ensures Count(s) <= Wanted(shape) && (Count(s) < Wanted(shape) ==> Room(shape, s, WiderSide(shape, s)) > 0)
  {
  }

  /** For every line without duplicates and every shape: the match takes as
      many teams as it wants, or all there are, each once, within both sides. */
  lemma FormsInFull(line: seq<Waiting>, shape: Shape)
    requires DistinctTeams(line)
    ensures var s := Formed(line, shape);
            && WellSeated(line, shape, s)
            && Count(s) == if |line| <= Wanted(shape) then |line| else Wanted(shape)
  {
    hide WellSeated;
    FillSeats(line, shape, |line|);
    assert line[..|line|] == line;
    var s := Formed(line, shape);
    SeatsUsed(line, shape, s);
    AtMostLine(line, shape, s);
    if Count(s) < Wanted(shape) {
      AtLeastLine(line, s);
    }
  }

  function Teams(line: seq<Waiting>): seq<Team> {
    if line == [] then [] else Teams(line[..|line| - 1]) + [line[|line| - 1].team]
  }

  lemma {:induction false} TeamsAre(line: seq<Waiting>)
    ensures |Teams(line)| == |line| && forall i: nat | i < |line| :: Teams(line)[i] == line[i].team
  {
    if line != [] {
      TeamsAre(line[..|line| - 1]);
    }
  }

  lemma SmallerMultiset(a: multiset<Team>, b: multiset<Team>)
    requires a <= b
    ensures |a| <= |b|
  {
    assert b == a + (b - a);
  }

  lemma AtMostLine(line: seq<Waiting>, shape: Shape, s: Sides)
    requires WellSeated(line, shape, s)
    ensures Count(s) <= |line|
  {
    TeamsAre(line);
    var seated, waiting := multiset(s.red + s.blue), multiset(Teams(line));
    forall t: Team ensures seated[t] <= waiting[t] {
      NotTwice(s, t);
      if Plays(s, t) {
        var i: nat :| i < |line| && line[i].team == t;
        assert Teams(line)[i] == t && t in Teams(line);
        assert t in waiting;
      }
    }
    SmallerMultiset(seated, waiting);
  }

  lemma AtLeastLine(line: seq<Waiting>, s: Sides)
    requires DistinctTeams(line) && forall i: nat | i < |line| :: Plays(s, line[i].team)
    ensures Count(s) >= |line|
  {
    TeamsAre(line);
    var seated, waiting := multiset(s.red + s.blue), multiset(Teams(line));
    forall t: Team ensures waiting[t] <= seated[t] {
      OnceInLine(line, t);
      if waiting[t] > 0 {
        assert t in waiting && t in Teams(line);
        var i: nat :| i < |line| && Teams(line)[i] == t;
        NotTwice(s, t);
        assert Plays(s, line[i].team);
      }
    }
    SmallerMultiset(waiting, seated);
  }

  lemma {:induction false} OnceInLine(line: seq<Waiting>, t: Team)
    requires DistinctTeams(line)
    ensures multiset(Teams(line))[t] <= 1
  {
    if line != [] {
      var front, last := line[..|line| - 1], line[|line| - 1].team;
      OnceInLine(front, t);
      TeamsAre(front);
      assert multiset(Teams(front))[t] > 0 ==> t in Teams(front);
    }
  }

  // ── Preferences ───────────────────────────────────────────────────

  /** The teams on side `a` are of those among the first `n` that prefer it. */
  ghost predicate EarlierAndWilling(line: seq<Waiting>, teams: seq<Team>, a: Alliance, n: nat) {
    forall t | t in teams :: exists i: nat :: i < n && i < |line| && line[i].team == t && line[i].alliance == Some(a)
  }

  lemma {:induction false} SeatedByChoice(line: seq<Waiting>, shape: Shape, a: Alliance)
    ensures EarlierAndWilling(line, Side(Prefer(line, shape), a), a, |line|)
  {
    if line != [] {
      var front, l := line[..|line| - 1], line[|line| - 1];
      SeatedByChoice(front, shape, a);
      forall t | t in Side(Prefer(line, shape), a)
        ensures exists i: nat :: i < |line| && line[i].team == t && line[i].alliance == Some(a) {
        if t in Side(Prefer(front, shape), a) {
          var i: nat :| i < |front| && front[i].team == t && front[i].alliance == Some(a);
          assert line[i] == front[i];
        } else {
          assert line[|line| - 1].team == t;
        }
      }
    }
  }

  /** Who is not on the side it prefers was refused it by teams before it that
      prefer it too, and fill it. */
  lemma {:induction false} RefusedForOthers(line: seq<Waiting>, shape: Shape, k: nat, a: Alliance)
    requires k < |line| && line[k].alliance == Some(a) && line[k].team !in Side(Prefer(line, shape), a)
    requires DistinctTeams(line)
    ensures var s := Side(Prefer(line, shape), a);
            |s| == Seats(shape, a) && EarlierAndWilling(line, s, a, k)
  {
    PreferSeats(line, shape);
    var front, l := line[..|line| - 1], line[|line| - 1];
    assert DistinctTeams(front);
    PreferSeats(front, shape);
    var before := Prefer(front, shape);
    if k == |line| - 1 {
      SeatedByChoice(front, shape, a);
      ShiftWilling(line, front, Side(before, a), a, k);
      SeatsTaken(shape, before, a);
    } else {
      assert front[k] == line[k];
      RefusedForOthers(front, shape, k, a);
      ShiftWilling(line, front, Side(before, a), a, k);
    }
  }

  lemma ShiftWilling(line: seq<Waiting>, front: seq<Waiting>, teams: seq<Team>, a: Alliance, n: nat)
    requires line != [] && front == line[..|line| - 1] && n <= |front| && EarlierAndWilling(front, teams, a, n)
    ensures EarlierAndWilling(line, teams, a, n)
  {
  }

  lemma SeatsTaken(shape: Shape, s: Sides, a: Alliance)
    requires |s.red| <= shape.red && |s.blue| <= shape.blue
    ensures Count(s) >= Wanted(shape) || Room(shape, s, a) <= 0 ==> |Side(s, a)| == Seats(shape, a)
  {
  }

  lemma {:induction false} FillKeepsFull(line: seq<Waiting>, shape: Shape, first: Sides, a: Alliance)
    requires |first.red| <= shape.red && |first.blue| <= shape.blue && |Side(first, a)| == Seats(shape, a)
    ensures Side(Fill(line, shape, first), a) == Side(first, a)
    ensures var s := Fill(line, shape, first); |s.red| <= shape.red && |s.blue| <= shape.blue
  {
    if line != [] {
      FillKeepsFull(line[..|line| - 1], shape, first, a);
    }
  }

  lemma {:induction false} FillKeepsSeats(line: seq<Waiting>, shape: Shape, first: Sides, a: Alliance, t: Team)
    requires t in Side(first, a)
    ensures t in Side(Fill(line, shape, first), a)
  {
    if line != [] {
      FillKeepsSeats(line[..|line| - 1], shape, first, a, t);
    }
  }

  /** A preference is met, or refused only because that side is full of teams
      that stood before in the line and prefer it too. */
  lemma PreferencesKept(line: seq<Waiting>, shape: Shape, k: nat, a: Alliance)
    requires DistinctTeams(line) && k < |line| && line[k].alliance == Some(a)
    ensures var s := Side(Formed(line, shape), a);
            line[k].team in s || (|s| == Seats(shape, a) && EarlierAndWilling(line, s, a, k))
  {
    var first := Prefer(line, shape);
    PreferSeats(line, shape);
    if line[k].team in Side(first, a) {
      FillKeepsSeats(line, shape, first, a, line[k].team);
    } else {
      RefusedForOthers(line, shape, k, a);
      FillKeepsFull(line, shape, first, a);
    }
  }

  // ── The list of matches ───────────────────────────────────────────

  ghost predicate DistinctIds(entries: seq<Entry>) {
    forall i: nat, j: nat | i < j < |entries| :: entries[i].id != entries[j].id
  }

  ghost predicate OneOnDeck(entries: seq<Entry>) {
    forall i: nat, j: nat | i < j < |entries| :: !(entries[i].status.OnDeck? && entries[j].status.OnDeck?)
  }

  predicate Fixed(e: Entry) { e.status.Played? || e.status.Playing? }

  predicate Moves(e: Entry) { !Fixed(e) }

  predicate StillToPlay(e: Entry) { !e.status.Played? && !e.status.Skipped? }

  predicate IsPlaying(e: Entry) { e.status.Playing? }

  function Survives(id: string): Entry -> bool { (e: Entry) => e.id != id || e.status.Playing? }

  function Select(entries: seq<Entry>, keep: Entry -> bool): seq<Entry> {
    if entries == [] then []
    else
      var before := Select(entries[..|entries| - 1], keep);
      if keep(entries[|entries| - 1]) then before + [entries[|entries| - 1]] else before
  }

  /** The first entry with that id. */
  function Find(entries: seq<Entry>, id: string): (k: Option<nat>)
    ensures k.Some? ==> k.value < |entries| && entries[k.value].id == id && forall j: nat | j < k.value :: entries[j].id != id
    ensures k.None? ==> forall e | e in entries :: e.id != id
  {
    if entries == [] then None
    else
      var k := Find(entries[..|entries| - 1], id);
      if k.Some? then k else if entries[|entries| - 1].id == id then Some(|entries| - 1) else None
  }

  // ── Reordering ────────────────────────────────────────────────────

  /** A table by id: a second entry of the same id takes the first one's place. */
  function ById(entries: seq<Entry>): (table: seq<Entry>)
    ensures |table| <= |entries|
  {
    if entries == [] then []
    else
      var table := ById(entries[..|entries| - 1]);
      var last := entries[|entries| - 1];
      var k := Find(table, last.id);
      if k.Some? then table[k.value := last] else table + [last]
  }

  datatype Picked = Picked(ordered: seq<Entry>, left: seq<Entry>)

  function Without(entries: seq<Entry>, k: nat): seq<Entry>
    requires k < |entries|
  {
    entries[..k] + entries[k + 1..]
  }

  /** The entries in the order of the ids, and those no id asked for. */
  function Pick(table: seq<Entry>, ids: seq<string>): Picked {
    if ids == [] then Picked([], table)
    else
      var p := Pick(table, ids[..|ids| - 1]);
      var k := Find(p.left, ids[|ids| - 1]);
      if k.None? then p else Picked(p.ordered + [p.left[k.value]], Without(p.left, k.value))
  }

  function Movable(entries: seq<Entry>): seq<Entry> { Select(entries, Moves) }

  function Reordered(entries: seq<Entry>, ids: seq<string>): seq<Entry> {
    var p := Pick(ById(Movable(entries)), ids);
    Select(entries, Fixed) + p.ordered + p.left
  }

  lemma FoundEntry(entries: seq<Entry>, id: string)
    ensures Find(entries, id).Some? <==> exists e :: e in entries && e.id == id
  {
  }

  lemma LastIdIsNew(entries: seq<Entry>)
    requires entries != [] && DistinctIds(entries)
    ensures DistinctIds(entries[..|entries| - 1])
    ensures forall e | e in entries[..|entries| - 1] :: e.id != entries[|entries| - 1].id
  {
  }

  lemma {:induction false} TableOfDistinct(entries: seq<Entry>)
    requires DistinctIds(entries)
    ensures ById(entries) == entries
  {
    if entries != [] {
      LastIdIsNew(entries);
      TableOfDistinct(entries[..|entries| - 1]);
      FoundEntry(entries[..|entries| - 1], entries[|entries| - 1].id);
    }
  }

  /** Only the last entry shares its id, or some two before it do. */
  lemma SharedId(entries: seq<Entry>)
    requires !DistinctIds(entries)
    ensures entries != []
    ensures !DistinctIds(entries[..|entries| - 1]) || exists e :: e in entries[..|entries| - 1] && e.id == entries[|entries| - 1].id
  {
  }

  lemma {:induction false} TableOfShared(entries: seq<Entry>)
    requires !DistinctIds(entries)
    ensures |ById(entries)| < |entries|
  {
    SharedId(entries);
    var front, last := entries[..|entries| - 1], entries[|entries| - 1];
    if DistinctIds(front) {
      TableOfDistinct(front);
      FoundEntry(front, last.id);
    } else {
      TableOfShared(front);
    }
  }

  lemma WithoutIs(entries: seq<Entry>, k: nat)
    requires k < |entries|
    ensures multiset(entries) == multiset(Without(entries, k)) + multiset{entries[k]}
    ensures DistinctIds(entries) ==> DistinctIds(Without(entries, k)) && forall e | e in Without(entries, k) :: e.id != entries[k].id
  {
    assert entries == entries[..k] + [entries[k]] + entries[k + 1..];
  }

  lemma {:induction false} PickPermutes(table: seq<Entry>, ids: seq<string>)
    ensures multiset(Pick(table, ids).ordered) + multiset(Pick(table, ids).left) == multiset(table)
  {
    if ids != [] {
      var p := Pick(table, ids[..|ids| - 1]);
      PickPermutes(table, ids[..|ids| - 1]);
      var k := Find(p.left, ids[|ids| - 1]);
      if k.Some? {
        WithoutIs(p.left, k.value);
      }
    }
  }

  lemma {:induction false} SelectSplits(entries: seq<Entry>)
    ensures multiset(Select(entries, Fixed)) + multiset(Movable(entries)) == multiset(entries)
    ensures |Select(entries, Fixed)| + |Movable(entries)| == |entries|
  {
    if entries != [] {
      SelectSplits(entries[..|entries| - 1]);
      assert entries == entries[..|entries| - 1] + [entries[|entries| - 1]];
    }
  }

  /** Any list of ids only changes the order, if and only if no two entries
      that can move share an id; entries that do are lost. */
  lemma ReorderPermutesIff(entries: seq<Entry>, ids: seq<string>)
    ensures multiset(Reordered(entries, ids)) == multiset(entries) <==> DistinctIds(Movable(entries))
  {
    hide Select, DistinctIds;
    var movable := Movable(entries);
    var p := Pick(ById(movable), ids);
    SelectSplits(entries);
    if DistinctIds(movable) {
      TableOfDistinct(movable);
    } else {
      TableOfShared(movable);
    }
    PickPermutes(ById(movable), ids);
    assert multiset(Reordered(entries, ids)) == multiset(Select(entries, Fixed)) + (multiset(p.ordered) + multiset(p.left));
    if !DistinctIds(movable) {
      assert |multiset(Reordered(entries, ids))| < |multiset(entries)|;
    }
  }

  /** Which ids are asked for, each the first time it is. */
  function Asked(ids: seq<string>): seq<string> {
    if ids == [] then []
    else
      var before := Asked(ids[..|ids| - 1]);
      if ids[|ids| - 1] in before then before else before + [ids[|ids| - 1]]
  }

  function Ids(entries: seq<Entry>): seq<string> {
    if entries == [] then [] else Ids(entries[..|entries| - 1]) + [entries[|entries| - 1].id]
  }

  predicate Has(entries: seq<Entry>, id: string) { Find(entries, id).Some? }

  function Present(entries: seq<Entry>, ids: seq<string>): seq<string> {
    if ids == [] then []
    else
      var before := Present(entries, ids[..|ids| - 1]);
      if Has(entries, ids[|ids| - 1]) then before + [ids[|ids| - 1]] else before
  }

  /** The entries no id asks for, as they stand. */
  function Unasked(entries: seq<Entry>, ids: seq<string>): seq<Entry> {
    if entries == [] then []
    else
      var before := Unasked(entries[..|entries| - 1], ids);
      if entries[|entries| - 1].id in ids then before else before + [entries[|entries| - 1]]
  }

  lemma {:induction false} UnaskedOfNone(entries: seq<Entry>)
    ensures Unasked(entries, []) == entries
  {
    if entries != [] {
      UnaskedOfNone(entries[..|entries| - 1]);
    }
  }

  lemma {:induction false} UnaskedAre(entries: seq<Entry>, ids: seq<string>)
    ensures forall e :: e in Unasked(entries, ids) <==> e in entries && e.id !in ids
  {
    if entries != [] {
      UnaskedAre(entries[..|entries| - 1], ids);
      assert entries == entries[..|entries| - 1] + [entries[|entries| - 1]];
    }
  }

  lemma FindLonger(entries: seq<Entry>, last: Entry, id: string)
    ensures var k := Find(entries, id);
            && Find(entries + [last], id) == (if k.Some? then k else if last.id == id then Some(|entries|) else None)
            && (k.Some? ==> Without(entries + [last], k.value) == Without(entries, k.value) + [last])
            && Without(entries + [last], |entries|) == entries
  {
    assert (entries + [last])[..|entries|] == entries;
  }

  lemma UnaskedLonger(entries: seq<Entry>, ids: seq<string>)
    requires entries != []
    ensures var front, last := entries[..|entries| - 1], entries[|entries| - 1];
            Unasked(entries, ids) == if last.id in ids then Unasked(front, ids) else Unasked(front, ids) + [last]
  {
  }

  lemma NotUnasked(entries: seq<Entry>, ids: seq<string>)
    requires entries != [] && DistinctIds(entries)
    ensures Find(Unasked(entries[..|entries| - 1], ids), entries[|entries| - 1].id).None?
  {
    var front := entries[..|entries| - 1];
    UnaskedAre(front, ids);
    LastIdIsNew(entries);
    FoundEntry(Unasked(front, ids), entries[|entries| - 1].id);
  }

  /** Asking for one more id takes out the one entry that has it. */
  lemma {:induction false} UnaskedFewer(entries: seq<Entry>, ids: seq<string>, id: string)
    requires DistinctIds(entries)
    ensures var k := Find(Unasked(entries, ids), id);
            Unasked(entries, ids + [id]) == if k.None? then Unasked(entries, ids) else Without(Unasked(entries, ids), k.value)
  {
    hide DistinctIds, Without, Find, Unasked;
    if entries == [] {
      NothingUnasked(ids);
      NothingUnasked(ids + [id]);
      FoundEntry([], id);
    } else {
      var front, last := entries[..|entries| - 1], entries[|entries| - 1];
      LastIdIsNew(entries);
      UnaskedFewer(front, ids, id);
      UnaskedLonger(entries, ids);
      UnaskedLonger(entries, ids + [id]);
      FindLonger(Unasked(front, ids), last, id);
      if last.id == id {
        NotUnasked(entries, ids);
      }
    }
  }

  lemma NothingUnasked(ids: seq<string>)
    ensures Unasked([], ids) == []
  {
  }

  lemma FoundIn(entries: seq<Entry>, ids: seq<string>, id: string)
    requires id !in ids
    ensures Has(Unasked(entries, ids), id) == Has(entries, id)
  {
  }

  lemma {:induction false} AskedAre(ids: seq<string>)
    ensures forall id :: id in Asked(ids) <==> id in ids
  {
    if ids != [] {
      AskedAre(ids[..|ids| - 1]);
      assert ids == ids[..|ids| - 1] + [ids[|ids| - 1]];
    }
  }

  lemma {:induction false} PickIs(table: seq<Entry>, ids: seq<string>)
    requires DistinctIds(table)
    ensures Pick(table, ids).left == Unasked(table, ids)
    ensures Ids(Pick(table, ids).ordered) == Present(table, Asked(ids))
  {
    hide DistinctIds, Unasked, Without;
    if ids == [] {
      UnaskedOfNone(table);
      NoIds(table);
    } else {
      var front, id := ids[..|ids| - 1], ids[|ids| - 1];
      assert ids == front + [id];
      PickIs(table, front);
      UnaskedFewer(table, front, id);
      UnaskedAre(table, front);
      AskedAre(front);
      var p := Pick(table, front);
      var k := Find(p.left, id);
      FoundEntry(p.left, id);
      if id !in front {
        FoundIn(table, front, id);
        var asked := Asked(front);
        assert (asked + [id])[..|asked|] == asked;
        if k.Some? {
          assert (p.ordered + [p.left[k.value]])[..|p.ordered|] == p.ordered;
        }
      }
    }
  }

  lemma NoIds(table: seq<Entry>)
    ensures Ids([]) == [] && Present(table, Asked([])) == []
  {
  }

  /** What the new order is: the entries that cannot move as they were, then
      those asked for in the order asked for, then the others as they were. */
  lemma ReorderedIs(entries: seq<Entry>, ids: seq<string>)
    requires DistinctIds(Movable(entries))
    ensures var ordered := Pick(Movable(entries), ids).ordered;
            && Reordered(entries, ids) == Select(entries, Fixed) + ordered + Unasked(Movable(entries), ids)
            && Ids(ordered) == Present(Movable(entries), Asked(ids))
  {
    hide Pick, Ids, Present, Asked;
    TableOfDistinct(Movable(entries));
    PickIs(Movable(entries), ids);
  }

  // ── The queue itself ──────────────────────────────────────────────

  datatype Queue = Queue(entries: seq<Entry>, line: seq<Waiting>)

  function WithStatus(entries: seq<Entry>, id: string, status: EntryStatus): seq<Entry> {
    var k := Find(entries, id);
    if k.None? then entries else entries[k.value := entries[k.value].(status := status)]
  }

  function FirstIs(entries: seq<Entry>, status: EntryStatus): (k: Option<nat>)
    ensures k.Some? ==> k.value < |entries| && entries[k.value].status == status
  {
    if entries == [] then None
    else
      var k := FirstIs(entries[..|entries| - 1], status);
      if k.Some? then k else if entries[|entries| - 1].status == status then Some(|entries| - 1) else None
  }

  /** The others step down from deck. */
  function SteppedDown(entries: seq<Entry>, id: string): seq<Entry> {
    seq(|entries|, i requires 0 <= i < |entries| =>
      if entries[i].status.OnDeck? && entries[i].id != id then entries[i].(status := Queued) else entries[i])
  }

  /** Right after what is on deck, playing or played. */
  function FrontIndex(entries: seq<Entry>): (k: nat)
    ensures k <= |entries| && (k < |entries| ==> entries[k].status.Queued?) && forall i: nat | i < k :: !entries[i].status.Queued?
  {
    if entries == [] || entries[0].status.Queued? then 0 else 1 + FrontIndex(entries[1..])
  }

  function LeaveFor(line: seq<Waiting>, s: Sides): seq<Waiting> {
    if line == [] then []
    else
      var before := LeaveFor(line[..|line| - 1], s);
      if Plays(s, line[|line| - 1].team) then before else before + [line[|line| - 1]]
  }

  function Numbered(entries: seq<Entry>): nat {
    if entries == [] then 0
    else
      var before := Numbered(entries[..|entries| - 1]);
      if entries[|entries| - 1].number > before then entries[|entries| - 1].number else before
  }

  function Added(q: Queue, id: string, source: Source, s: Sides, atFront: bool): Queue {
    var entry := Entry(id, Numbered(q.entries) + 1, source, s.red, s.blue, Queued);
    var k := if atFront then FrontIndex(q.entries) else |q.entries|;
    Queue(q.entries[..k] + [entry] + q.entries[k..], LeaveFor(q.line, s))
  }

  /** One match of an imported schedule. */
  datatype Input = Input(id: string, source: Source, sides: Sides)

  function AddedMany(q: Queue, inputs: seq<Input>): Queue {
    if inputs == [] then q
    else
      var last := inputs[|inputs| - 1];
      Added(AddedMany(q, inputs[..|inputs| - 1]), last.id, last.source, last.sides, false)
  }

  predicate OutlivesImport(e: Entry) { !e.status.Queued? && !e.status.Skipped? }

  /** A schedule goes to the end, in its order, after what is still queued or
      in its place. */
  function Imported(q: Queue, inputs: seq<Input>, replacing: bool): Queue {
    AddedMany(if replacing then q.(entries := Select(q.entries, OutlivesImport)) else q, inputs)
  }

  function FirstThree(teams: seq<Team>): seq<Team> { if |teams| > 3 then teams[..3] else teams }

  function Edited(e: Entry, red: Option<seq<Team>>, blue: Option<seq<Team>>): Entry {
    e.(red := if red.Some? then FirstThree(red.value) else e.red, blue := if blue.Some? then FirstThree(blue.value) else e.blue)
  }

  /** Where a list of `n` puts an entry asked for at `index`: a negative one
      counts from the end. */
  function PlaceIn(n: nat, index: int): (k: nat)
    ensures k <= n
  {
    if index > n then n else if index >= 0 then index else if n + index >= 0 then n + index else 0
  }

  function Moved(line: seq<Waiting>, team: Team, index: int): seq<Waiting> {
    var k := LinePosition(line, team);
    if k.None? then line
    else
      var others := line[..k.value] + line[k.value + 1..];
      var to := PlaceIn(|others|, index);
      others[..to] + [line[k.value]] + others[to..]
  }

  predicate MayForm(line: seq<Waiting>, shape: Shape, allowShort: bool) {
    && IsShape(shape) && Count(Formed(line, shape)) > 0
    && (Count(Formed(line, shape)) >= Wanted(shape) || allowShort)
  }

  predicate Upcoming(entries: seq<Entry>, team: Team) {
    exists e :: e in entries && (e.status.Queued? || e.status.OnDeck?) && (team in e.red || team in e.blue)
  }

  function LinePosition(line: seq<Waiting>, team: Team): (k: Option<nat>)
    ensures k.Some? ==> k.value < |line| && line[k.value].team == team
    ensures k.None? ==> forall i: nat | i < |line| :: line[i].team != team
  {
    if line == [] then None
    else if line[0].team == team then Some(0)
    else
      var k := LinePosition(line[1..], team);
      if k.None? then None else Some(k.value + 1)
  }

  /** The first in line that is not in the match already. */
  function FirstFree(line: seq<Waiting>, s: Sides): (k: Option<nat>)
    ensures k.Some? ==> k.value < |line| && !Plays(s, line[k.value].team)
    ensures k.None? ==> forall i: nat | i < |line| :: Plays(s, line[i].team)
  {
    if line == [] then None
    else if !Plays(s, line[0].team) then Some(0)
    else
      var k := FirstFree(line[1..], s);
      if k.None? then None else Some(k.value + 1)
  }

  function IndexOf(teams: seq<Team>, team: Team): (k: nat)
    requires team in teams
    ensures k < |teams| && teams[k] == team
  {
    if teams[0] == team then 0 else 1 + IndexOf(teams[1..], team)
  }

  /** A side with `team` replaced, or taken out if nobody comes. */
  function Swapped(teams: seq<Team>, team: Team, next: Option<Team>): seq<Team>
    requires team in teams
  {
    var k := IndexOf(teams, team);
    if next.Some? then teams[k := next.value] else teams[..k] + teams[k + 1..]
  }

  predicate MayReplace(q: Queue, id: string, team: Team) {
    var k := Find(q.entries, id);
    k.Some? && !Fixed(q.entries[k.value]) && Plays(Sides(q.entries[k.value].red, q.entries[k.value].blue), team)
  }

  function Replacement(q: Queue, id: string, team: Team): Option<Team>
    requires MayReplace(q, id, team)
  {
    var e := q.entries[Find(q.entries, id).value];
    var k := FirstFree(q.line, Sides(e.red, e.blue));
    if k.None? then None else Some(q.line[k.value].team)
  }

  /** The replaced team goes to the back of the line, if it came from it. */
  function Replaced(q: Queue, id: string, team: Team): Queue
    requires MayReplace(q, id, team)
  {
    var k := Find(q.entries, id).value;
    var e := q.entries[k];
    var next := Replacement(q, id, team);
    var e' := if team in e.red then e.(red := Swapped(e.red, team, next)) else e.(blue := Swapped(e.blue, team, next));
    var line := if next.None? then q.line else LeaveFor(q.line, Sides([next.value], []));
    Queue(q.entries[k := e'], if e.source.FromLine? then line + [Waiting(team, None)] else line)
  }

  // ── At most one match is on deck ──────────────────────────────────

  datatype Op =
    | Add(id: string, source: Source, sides: Sides, atFront: bool)
    | Form(id: string, shape: Shape, allowShort: bool)
    | Remove(id: string) | Reorder(ids: seq<string>) | Skip(id: string) | Requeue(id: string) | MarkOnDeck(id: string)
    | MarkPlaying | MarkPlayed | ClearPlayed | ClearAll
    | Replace(id: string, team: Team)
    | Join(team: Team, alliance: Option<Alliance>, open: bool) | Leave(team: Team) | Move(team: Team, index: int)
    | Import(inputs: seq<Input>, replacing: bool) | Edit(id: string, red: Option<seq<Team>>, blue: Option<seq<Team>>)

  function StatusOf(entries: seq<Entry>, id: string): Option<EntryStatus> {
    var k := Find(entries, id);
    if k.None? then None else Some(entries[k.value].status)
  }

  function Joined(q: Queue, team: Team, alliance: Option<Alliance>): Queue {
    var k := LinePosition(q.line, team);
    if Upcoming(q.entries, team) then q
    else if k.Some? then q.(line := q.line[k.value := q.line[k.value].(alliance := alliance)])
    else q.(line := q.line + [Waiting(team, alliance)])
  }

  function Next(q: Queue, op: Op): Queue {
    match op
    case Add(id, source, sides, atFront) => Added(q, id, source, sides, atFront)
    case Form(id, shape, allowShort) =>
      if MayForm(q.line, shape, allowShort) then Added(q, id, FromLine, Formed(q.line, shape), true) else q
    case Remove(id) => q.(entries := Select(q.entries, Survives(id)))
    case Reorder(ids) => q.(entries := Reordered(q.entries, ids))
    case Skip(id) =>
      var status := StatusOf(q.entries, id);
      if status.None? || status.value.Playing? || status.value.Played? then q else q.(entries := WithStatus(q.entries, id, Skipped))
    case Requeue(id) =>
      var status := StatusOf(q.entries, id);
      if status == Some(Skipped) || status == Some(OnDeck) then q.(entries := WithStatus(q.entries, id, Queued)) else q
    case MarkOnDeck(id) =>
      var status := StatusOf(q.entries, id);
      if status.None? || status.value.Playing? || status.value.Played? then q
      else q.(entries := WithStatus(SteppedDown(q.entries, id), id, OnDeck))
    case MarkPlaying =>
      var k := FirstIs(q.entries, OnDeck);
      if k.None? then q else q.(entries := q.entries[k.value := q.entries[k.value].(status := Playing)])
    case MarkPlayed =>
      var k := FirstIs(q.entries, Playing);
      if k.None? then q else q.(entries := q.entries[k.value := q.entries[k.value].(status := Played)])
    case ClearPlayed => q.(entries := Select(q.entries, StillToPlay))
    case ClearAll => q.(entries := Select(q.entries, IsPlaying))
    case Replace(id, team) => if MayReplace(q, id, team) then Replaced(q, id, team) else q
    case Join(team, alliance, open) => if open then Joined(q, team, alliance) else q
    case Leave(team) => q.(line := LeaveFor(q.line, Sides([team], [])))
    case Move(team, index) => q.(line := Moved(q.line, team, index))
    case Import(inputs, replacing) => Imported(q, inputs, replacing)
    case Edit(id, red, blue) =>
      var k := Find(q.entries, id);
      if k.None? || q.entries[k.value].status.Played? then q
      else q.(entries := q.entries[k.value := Edited(q.entries[k.value], red, blue)])
  }

  ghost predicate NewTo(entries: seq<Entry>, inputs: seq<Input>) {
    && (forall i: nat, e | i < |inputs| && e in entries :: e.id != inputs[i].id)
    && forall i: nat, j: nat | i < j < |inputs| :: inputs[i].id != inputs[j].id
  }

  /** The id of a new match is one no other has. */
  ghost predicate NewId(q: Queue, op: Op) {
    && (op.Add? ==> forall e | e in q.entries :: e.id != op.id)
    && (op.Form? ==> forall e | e in q.entries :: e.id != op.id)
    && (op.Import? ==> NewTo(q.entries, op.inputs))
  }

  ghost predicate Orderly(entries: seq<Entry>) { DistinctIds(entries) && OneOnDeck(entries) }

  lemma {:induction false} SelectOrderly(entries: seq<Entry>, keep: Entry -> bool)
    requires Orderly(entries)
    ensures Orderly(Select(entries, keep)) && forall e | e in Select(entries, keep) :: e in entries
  {
    if entries != [] {
      var front, last := entries[..|entries| - 1], entries[|entries| - 1];
      SelectOrderly(front, keep);
      var some := Select(front, keep);
      forall i: nat | i < |some| ensures some[i].id != last.id && !(some[i].status.OnDeck? && last.status.OnDeck?) {
        assert some[i] in front;
        var j: nat :| j < |front| && front[j] == some[i];
        assert entries[j] == some[i];
      }
    }
  }

  lemma InsertedOrderly(entries: seq<Entry>, k: nat, entry: Entry)
    requires Orderly(entries) && k <= |entries| && !entry.status.OnDeck? && forall e | e in entries :: e.id != entry.id
    ensures Orderly(entries[..k] + [entry] + entries[k..])
  {
  }

  /** One entry changes, but not its id, and does not come on deck. */
  lemma ChangedOrderly(entries: seq<Entry>, k: nat, entry: Entry)
    requires Orderly(entries) && k < |entries| && entry.id == entries[k].id && (entry.status.OnDeck? ==> entries[k].status.OnDeck?)
    ensures Orderly(entries[k := entry])
  {
  }

  lemma OnDeckOrderly(entries: seq<Entry>, id: string)
    requires Orderly(entries)
    ensures Orderly(WithStatus(SteppedDown(entries, id), id, OnDeck))
  {
  }

  lemma ReorderOrderly(entries: seq<Entry>, ids: seq<string>)
    requires Orderly(entries)
    ensures Orderly(Reordered(entries, ids))
  {
    SelectOrderly(entries, Moves);
    ReorderPermutesIff(entries, ids);
    PermutedOrderly(entries, Reordered(entries, ids));
  }

  /** Being orderly does not depend on the order. */
  lemma PermutedOrderly(a: seq<Entry>, b: seq<Entry>)
    requires Orderly(a) && multiset(a) == multiset(b)
    ensures Orderly(b)
  {
    forall i: nat, j: nat | i < j < |b| ensures b[i].id != b[j].id && !(b[i].status.OnDeck? && b[j].status.OnDeck?) {
      TwoPlaces(a, b, i, j);
    }
  }

  lemma TwoPlaces(a: seq<Entry>, b: seq<Entry>, i: nat, j: nat)
    requires multiset(a) == multiset(b) && i < j < |b|
    ensures exists m: nat, n: nat :: m < |a| && n < |a| && m != n && a[m] == b[i] && a[n] == b[j]
  {
    assert b[i] in multiset(b) && b[j] in multiset(b);
    assert b[i] in a && b[j] in a;
    if b[i] == b[j] {
      assert b == b[..i] + [b[i]] + b[i + 1..j] + [b[j]] + b[j + 1..];
      assert multiset(b)[b[i]] >= 2;
      Twice(a, b[i]);
    } else {
      var m: nat :| m < |a| && a[m] == b[i];
      var n: nat :| n < |a| && a[n] == b[j];
    }
  }

  lemma {:induction false} Twice(a: seq<Entry>, e: Entry)
    requires multiset(a)[e] >= 2
    ensures exists m: nat, n: nat :: m < n < |a| && a[m] == e && a[n] == e
  {
    var front, last := a[..|a| - 1], a[|a| - 1];
    assert a == front + [last];
    if multiset(front)[e] >= 2 {
      Twice(front, e);
      var m: nat, n: nat :| m < n < |front| && front[m] == e && front[n] == e;
      assert a[m] == e && a[n] == e;
    } else {
      assert last == e && e in multiset(front);
      var m: nat :| m < |front| && front[m] == e;
      assert a[m] == e && a[|a| - 1] == e;
    }
  }

  /** No step puts a second match on deck, or two of one id in the list. */
  lemma NextOrderly(q: Queue, op: Op)
    requires Orderly(q.entries) && NewId(q, op)
    ensures Orderly(Next(q, op).entries)
  {
    hide Orderly, Select, Reordered, Formed, SteppedDown, AddedMany, NewTo;
    match op
    case Add(id, source, sides, atFront) => AddOrderly(q, id, source, sides, atFront);
    case Form(id, shape, _) => AddOrderly(q, id, FromLine, Formed(q.line, shape), true);
    case Remove(id) => SelectOrderly(q.entries, Survives(id));
    case Reorder(ids) => ReorderOrderly(q.entries, ids);
    case Skip(id) => StatusOrderly(q.entries, id, Skipped);
    case Requeue(id) => StatusOrderly(q.entries, id, Queued);
    case MarkOnDeck(id) => OnDeckOrderly(q.entries, id);
    case MarkPlaying =>
      var k := FirstIs(q.entries, OnDeck);
      if k.Some? {
        ChangedOrderly(q.entries, k.value, q.entries[k.value].(status := Playing));
      }
    case MarkPlayed =>
      var k := FirstIs(q.entries, Playing);
      if k.Some? {
        ChangedOrderly(q.entries, k.value, q.entries[k.value].(status := Played));
      }
    case ClearPlayed => SelectOrderly(q.entries, StillToPlay);
    case ClearAll => SelectOrderly(q.entries, IsPlaying);
    case Replace(id, team) =>
      if MayReplace(q, id, team) {
        var k := Find(q.entries, id).value;
        ChangedOrderly(q.entries, k, Replaced(q, id, team).entries[k]);
      }
    case Join(_, _, _) =>
    case Leave(_) =>
    case Move(_, _) =>
    case Import(inputs, replacing) => ImportOrderly(q, inputs, replacing);
    case Edit(id, red, blue) =>
      var k := Find(q.entries, id);
      if k.Some? {
        ChangedOrderly(q.entries, k.value, Edited(q.entries[k.value], red, blue));
      }
  }

  /** Every entry after an import was there before, or is of the schedule. */
  lemma {:induction false} AddedManyOrderly(q: Queue, inputs: seq<Input>)
    requires Orderly(q.entries) && NewTo(q.entries, inputs)
    ensures Orderly(AddedMany(q, inputs).entries)
    ensures forall e | e in AddedMany(q, inputs).entries :: e in q.entries || exists i: nat :: i < |inputs| && e.id == inputs[i].id
  {
    hide Orderly;
    if inputs != [] {
      var n := |inputs| - 1;
      var before := AddedMany(q, inputs[..n]);
      AddedManyOrderly(q, inputs[..n]);
      forall e | e in before.entries ensures e.id != inputs[n].id {
        if e !in q.entries {
          var i: nat :| i < n && e.id == inputs[..n][i].id;
        }
      }
      AddOrderly(before, inputs[n].id, inputs[n].source, inputs[n].sides, false);
      forall e | e in AddedMany(q, inputs).entries
        ensures e in q.entries || exists i: nat :: i < |inputs| && e.id == inputs[i].id
      {
        if e in before.entries && e !in q.entries {
          var i: nat :| i < n && e.id == inputs[..n][i].id;
          assert e.id == inputs[i].id;
        }
      }
    }
  }

  lemma ImportOrderly(q: Queue, inputs: seq<Input>, replacing: bool)
    requires Orderly(q.entries) && NewTo(q.entries, inputs)
    ensures Orderly(Imported(q, inputs, replacing).entries)
  {
    hide Orderly, AddedMany, Select;
    SelectOrderly(q.entries, OutlivesImport);
    AddedManyOrderly(if replacing then q.(entries := Select(q.entries, OutlivesImport)) else q, inputs);
  }

  lemma AddOrderly(q: Queue, id: string, source: Source, s: Sides, atFront: bool)
    requires Orderly(q.entries) && forall e | e in q.entries :: e.id != id
    ensures Orderly(Added(q, id, source, s, atFront).entries)
  {
    hide Orderly;
    var k := if atFront then FrontIndex(q.entries) else |q.entries|;
    InsertedOrderly(q.entries, k, Entry(id, Numbered(q.entries) + 1, source, s.red, s.blue, Queued));
  }

  lemma StatusOrderly(entries: seq<Entry>, id: string, status: EntryStatus)
    requires Orderly(entries) && !status.OnDeck?
    ensures Orderly(WithStatus(entries, id, status))
  {
  }

  function Run(q: Queue, ops: seq<Op>): Queue {
    if ops == [] then q else Next(Run(q, ops[..|ops| - 1]), ops[|ops| - 1])
  }

  ghost predicate NewIds(q: Queue, ops: seq<Op>) { forall i: nat | i < |ops| :: NewId(Run(q, ops[..i]), ops[i]) }

  /** At most one match is on deck, after any run. */
  lemma {:induction false} NeverTwoOnDeck(q: Queue, ops: seq<Op>)
    requires Orderly(q.entries) && NewIds(q, ops)
    ensures Orderly(Run(q, ops).entries)
  {
    hide Orderly, Next, NewId;
    if ops != [] {
      var before := ops[..|ops| - 1];
      forall i: nat | i < |before| ensures NewId(Run(q, before[..i]), before[i]) {
        assert before[..i] == ops[..i] && before[i] == ops[i];
      }
      NeverTwoOnDeck(q, before);
      assert ops[..|before|] == before;
      NextOrderly(Run(q, before), ops[|ops| - 1]);
    }
  }

  // ── No team is twice in the line, but for one way ─────────────────

  lemma {:induction false} LeaveForDistinct(line: seq<Waiting>, s: Sides)
    requires DistinctTeams(line)
    ensures DistinctTeams(LeaveFor(line, s))
    ensures forall t: Team :: InLine(LeaveFor(line, s), t) <==> InLine(line, t) && !Plays(s, t)
  {
    if line != [] {
      var front, last := line[..|line| - 1], line[|line| - 1];
      LeaveForDistinct(front, s);
      var some := LeaveFor(front, s);
      forall t: Team ensures InLine(LeaveFor(line, s), t) <==> InLine(line, t) && !Plays(s, t) {
        LongerHas(front, last, t);
        LongerHas(some, last, t);
        assert front + [last] == line;
      }
      InFront(line, last.team);
      AppendDistinct(some, last);
    }
  }

  lemma LongerHas(line: seq<Waiting>, l: Waiting, t: Team)
    ensures InLine(line + [l], t) <==> InLine(line, t) || l.team == t
  {
    if InLine(line, t) {
      var i: nat :| i < |line| && line[i].team == t;
      assert (line + [l])[i].team == t;
    }
    assert (line + [l])[|line|] == l;
  }

  lemma AppendDistinct(line: seq<Waiting>, l: Waiting)
    requires DistinctTeams(line)
    ensures DistinctTeams(line + [l]) <==> !InLine(line, l.team)
  {
    var more := line + [l];
    if InLine(line, l.team) {
      var i: nat :| i < |line| && line[i].team == l.team;
      assert more[i].team == more[|line|].team;
    }
  }

  /** The one way in which a step puts a team in the line a second time: it is
      replaced in a match formed from the line while it waits in the line. */
  predicate QueuesTwice(q: Queue, op: Op) {
    && op.Replace? && MayReplace(q, op.id, op.team) && q.entries[Find(q.entries, op.id).value].source.FromLine?
    && LinePosition(q.line, op.team).Some?
  }

  lemma LineStaysDistinctIff(q: Queue, op: Op)
    requires DistinctTeams(q.line)
    ensures DistinctTeams(Next(q, op).line) <==> !QueuesTwice(q, op)
  {
    hide DistinctTeams, Formed, Reordered, Select, SteppedDown, WithStatus, AddedMany, Moved;
    match op
    case Add(_, _, sides, _) => LeaveForDistinct(q.line, sides);
    case Form(_, shape, _) => LeaveForDistinct(q.line, Formed(q.line, shape));
    case Leave(team) => LeaveForDistinct(q.line, Sides([team], []));
    case Join(team, alliance, _) => JoinDistinct(q, team, alliance);
    case Replace(id, team) =>
      if MayReplace(q, id, team) {
        ReplaceDistinct(q, id, team);
      }
    case Move(team, index) => MoveDistinct(q.line, team, index);
    case Import(inputs, replacing) =>
      AddedManyDistinct(if replacing then q.(entries := Select(q.entries, OutlivesImport)) else q, inputs);
    case _ =>
  }

  lemma {:induction false} AddedManyDistinct(q: Queue, inputs: seq<Input>)
    requires DistinctTeams(q.line)
    ensures DistinctTeams(AddedMany(q, inputs).line)
  {
    hide DistinctTeams;
    if inputs != [] {
      var n := |inputs| - 1;
      AddedManyDistinct(q, inputs[..n]);
      LeaveForDistinct(AddedMany(q, inputs[..n]).line, inputs[n].sides);
    }
  }

  /** Moving in line keeps the others in their order, and puts the team where
      it was asked for, as far as the line goes. */
  lemma MoveDistinct(line: seq<Waiting>, team: Team, index: int)
    requires DistinctTeams(line)
    ensures DistinctTeams(Moved(line, team, index))
    ensures LinePosition(line, team).Some? ==>
      LinePosition(Moved(line, team, index), team) == Some(PlaceIn(|line| - 1, index))
  {
    var k := LinePosition(line, team);
    if k.Some? {
      var others := line[..k.value] + line[k.value + 1..];
      var to := PlaceIn(|others|, index);
      var entry := line[k.value];
      TakenOut(line, k.value);
      PutIn(others, to, entry);
      FoundAt(Moved(line, team, index), to);
    }
  }

  lemma TakenOut(line: seq<Waiting>, k: nat)
    requires DistinctTeams(line) && k < |line|
    ensures var others := line[..k] + line[k + 1..]; DistinctTeams(others) && forall i: nat | i < |others| :: others[i].team != line[k].team
  {
    var others := line[..k] + line[k + 1..];
    forall i: nat | i < |others| ensures others[i] == line[if i < k then i else i + 1] {
    }
  }

  lemma PutIn(others: seq<Waiting>, to: nat, entry: Waiting)
    requires DistinctTeams(others) && to <= |others| && forall i: nat | i < |others| :: others[i].team != entry.team
    ensures var line := others[..to] + [entry] + others[to..]; DistinctTeams(line) && line[to] == entry
  {
    var line := others[..to] + [entry] + others[to..];
    forall i: nat | i < |line| && i != to ensures line[i] == others[if i < to then i else i - 1] {
    }
  }

  lemma {:induction false} FoundAt(line: seq<Waiting>, k: nat)
    requires DistinctTeams(line) && k < |line|
    ensures LinePosition(line, line[k].team) == Some(k)
  {
    if k > 0 {
      FoundAt(line[1..], k - 1);
    }
  }

  lemma JoinDistinct(q: Queue, team: Team, alliance: Option<Alliance>)
    requires DistinctTeams(q.line)
    ensures DistinctTeams(Joined(q, team, alliance).line)
  {
  }

  lemma ReplaceDistinct(q: Queue, id: string, team: Team)
    requires DistinctTeams(q.line) && MayReplace(q, id, team)
    ensures DistinctTeams(Replaced(q, id, team).line) <==> !QueuesTwice(q, Replace(id, team))
  {
    hide DistinctTeams, Swapped;
    var e := q.entries[Find(q.entries, id).value];
    var next := Replacement(q, id, team);
    var line := if next.None? then q.line else LeaveFor(q.line, Sides([next.value], []));
    if next.Some? {
      LeaveForDistinct(q.line, Sides([next.value], []));
      assert next.value != team;
    }
    AppendDistinct(line, Waiting(team, None));
    var k := LinePosition(q.line, team);
    assert InLine(q.line, team) <==> k.Some?;
  }

  /** It does happen: skip a match formed from the line, let one of its teams
      join the line again, and replace that team in the skipped match. */
  lemma SkippedTeamQueuesTwice(q: Queue, id: string, team: Team, alliance: Option<Alliance>)
    requires var k := Find(q.entries, id);
             && k.Some? && q.entries[k.value].status.Queued? && q.entries[k.value].source.FromLine?
             && team in q.entries[k.value].red
    requires DistinctTeams(q.line) && LinePosition(q.line, team).None?
    requires !Upcoming(Next(q, Skip(id)).entries, team)
    ensures !DistinctTeams(Run(q, [Skip(id), Join(team, alliance, true), Replace(id, team)]).line)
  {
    var skipped := Next(q, Skip(id));
    var k := Find(q.entries, id).value;
    assert skipped.entries == q.entries[k := q.entries[k].(status := Skipped)];
    SameFind(q.entries, k, q.entries[k].(status := Skipped), id);
    var joined := Next(skipped, Join(team, alliance, true));
    assert joined == skipped.(line := q.line + [Waiting(team, alliance)]);
    assert joined.line[|q.line|].team == team;
    JoinDistinct(skipped, team, alliance);
    LineStaysDistinctIff(joined, Replace(id, team));
    assert QueuesTwice(joined, Replace(id, team));
    ThreeSteps(q, Skip(id), Join(team, alliance, true), Replace(id, team));
  }

  lemma ThreeSteps(q: Queue, a: Op, b: Op, c: Op)
    ensures Run(q, [a, b, c]) == Next(Next(Next(q, a), b), c)
  {
    hide Next;
    OneStep(q, [], a);
    OneStep(q, [a], b);
    OneStep(q, [a, b], c);
    assert [] + [a] == [a] && [a] + [b] == [a, b] && [a, b] + [c] == [a, b, c];
  }

  lemma OneStep(q: Queue, ops: seq<Op>, op: Op)
    ensures Run(q, ops + [op]) == Next(Run(q, ops), op)
  {
  }

  lemma {:induction false} SameFind(entries: seq<Entry>, k: nat, e: Entry, id: string)
    requires k < |entries| && e.id == entries[k].id
    ensures Find(entries[k := e], id) == Find(entries, id)
  {
    var n := |entries| - 1;
    if k < n {
      assert entries[k := e][..n] == entries[..n][k := e];
      SameFind(entries[..n], k, e, id);
    } else {
      assert entries[k := e][..n] == entries[..n];
    }
  }

  // ── The queue as an object ────────────────────────────────────────

  lemma {:induction false} PreferStops(line: seq<Waiting>, shape: Shape, n: nat, i: nat)
    requires i <= n <= |line| && Count(Prefer(line[..i], shape)) >= Wanted(shape)
    ensures Prefer(line[..n], shape) == Prefer(line[..i], shape)
  {
    if i < n {
      PreferStops(line, shape, n - 1, i);
      assert line[..n][..n - 1] == line[..n - 1];
    }
  }

  lemma {:induction false} FillStops(line: seq<Waiting>, shape: Shape, first: Sides, n: nat, i: nat)
    requires i <= n <= |line| && Count(Fill(line[..i], shape, first)) >= Wanted(shape)
    ensures Fill(line[..n], shape, first) == Fill(line[..i], shape, first)
  {
    if i < n {
      FillStops(line, shape, first, n - 1, i);
      assert line[..n][..n - 1] == line[..n - 1];
    }
  }

  class MatchQueue {
    var entries: seq<Entry>
    var line: seq<Waiting>

    ghost function View(): Queue
      reads this
    {
      Queue(entries, line)
    }

    constructor ()
      ensures View() == Queue([], [])
    {
      entries, line := [], [];
    }

    method FirstPass(shape: Shape) returns (s: Sides)
      ensures s == Prefer(line, shape)
    {
      s := NOBODY;
      assert line[..|line|] == line;
      for i := 0 to |line|
        invariant s == Prefer(line[..i], shape)
      {
        if Count(s) >= Wanted(shape) {
          PreferStops(line, shape, |line|, i);
          return;
        }
        assert line[..i + 1][..i] == line[..i];
        var l := line[i];
        if l.alliance.Some? && Room(shape, s, l.alliance.value) > 0 {
          s := Seat(s, l.team, l.alliance.value);
        }
      }
    }

    method SecondPass(shape: Shape, first: Sides) returns (s: Sides)
      ensures s == Fill(line, shape, first)
    {
      s := first;
      assert line[..|line|] == line;
      for i := 0 to |line|
        invariant s == Fill(line[..i], shape, first)
      {
        if Count(s) >= Wanted(shape) {
          FillStops(line, shape, first, |line|, i);
          return;
        }
        assert line[..i + 1][..i] == line[..i];
        var l := line[i];
        if Plays(s, l.team) {
          continue;
        }
        var side := if Room(shape, s, Red) >= Room(shape, s, Blue) then Red else Blue;
        if Room(shape, s, side) > 0 {
          s := Seat(s, l.team, side);
        }
      }
    }

    method FormFromLine(id: string, shape: Shape, allowShort: bool) returns (formed: bool)
      modifies this
      ensures formed == MayForm(old(line), shape, allowShort)
      ensures View() == Next(old(View()), Form(id, shape, allowShort))
    {
      if !IsShape(shape) {
        return false;
      }
      var first := FirstPass(shape);
      var s := SecondPass(shape, first);
      if Count(s) == 0 || (Count(s) < Wanted(shape) && !allowShort) {
        return false;
      }
      AddEntry(id, FromLine, s, true);
      return true;
    }

    method Front() returns (k: nat)
      ensures k == FrontIndex(entries)
    {
      k := 0;
      while k < |entries| && !entries[k].status.Queued?
        invariant k <= |entries| && FrontIndex(entries) == k + FrontIndex(entries[k..])
      {
        assert entries[k..][1..] == entries[k + 1..];
        k := k + 1;
      }
    }

    method AddEntry(id: string, source: Source, s: Sides, atFront: bool)
      modifies this
      ensures View() == Added(old(View()), id, source, s, atFront)
    {
      var entry := Entry(id, Numbered(entries) + 1, source, s.red, s.blue, Queued);
      line := LeaveFor(line, s);
      if atFront {
        var k := Front();
        entries := entries[..k] + [entry] + entries[k..];
      } else {
        entries := entries + [entry];
        assert entries == old(entries)[..|old(entries)|] + [entry] + old(entries)[|old(entries)|..];
      }
    }

    method Reorder(ids: seq<string>)
      modifies this
      ensures View() == Next(old(View()), Op.Reorder(ids))
    {
      var table := ById(Movable(entries));
      var left := table;
      var ordered: seq<Entry> := [];
      assert ids[..|ids|] == ids;
      for i := 0 to |ids|
        invariant Picked(ordered, left) == Pick(table, ids[..i])
      {
        assert ids[..i + 1][..i] == ids[..i];
        var k := Find(left, ids[i]);
        if k.Some? {
          ordered := ordered + [left[k.value]];
          left := Without(left, k.value);
        }
      }
      entries := Select(entries, Fixed) + ordered + left;
    }

    method StepDown(id: string)
      modifies `entries
      ensures entries == SteppedDown(old(entries), id)
    {
      var i := 0;
      while i < |entries|
        invariant 0 <= i <= |entries| == |old(entries)|
        invariant forall k: nat | k < i :: entries[k] == SteppedDown(old(entries), id)[k]
        invariant forall k: nat | i <= k < |entries| :: entries[k] == old(entries)[k]
      {
        if entries[i].status.OnDeck? && entries[i].id != id {
          entries := entries[i := entries[i].(status := Queued)];
        }
        i := i + 1;
      }
    }

    /** Only one match is on deck at a time. */
    method MarkOnDeck(id: string) returns (ok: bool)
      modifies this
      ensures View() == Next(old(View()), Op.MarkOnDeck(id))
      ensures ok ==> StatusOf(entries, id) == Some(OnDeck)
    {
      var k := Find(entries, id);
      if k.None? || entries[k.value].status.Playing? || entries[k.value].status.Played? {
        return false;
      }
      StepDown(id);
      StepDownFinds(old(entries), id, |old(entries)|);
      assert entries[..|entries|] == entries && old(entries)[..|old(entries)|] == old(entries);
      entries := entries[k.value := entries[k.value].(status := OnDeck)];
      SameFind(SteppedDown(old(entries), id), k.value, entries[k.value], id);
      return true;
    }

    static lemma {:induction false} StepDownFinds(entries: seq<Entry>, id: string, n: nat)
      requires n <= |entries|
      ensures Find(SteppedDown(entries, id)[..n], id) == Find(entries[..n], id)
    {
      if n > 0 {
        StepDownFinds(entries, id, n - 1);
        assert entries[..n][..n - 1] == entries[..n - 1];
        assert SteppedDown(entries, id)[..n][..n - 1] == SteppedDown(entries, id)[..n - 1];
      }
    }

    method ReplaceTeam(id: string, team: Team) returns (replaced: bool)
      modifies this
      ensures replaced == MayReplace(old(View()), id, team)
      ensures View() == Next(old(View()), Replace(id, team))
    {
      var k := Find(entries, id);
      if k.None? || Fixed(entries[k.value]) {
        return false;
      }
      var e := entries[k.value];
      if team !in e.red && team !in e.blue {
        return false;
      }
      var free := FirstFree(line, Sides(e.red, e.blue));
      var next := if free.Some? then Some(line[free.value].team) else None;
      if team in e.red {
        entries := entries[k.value := e.(red := Swapped(e.red, team, next))];
      } else {
        entries := entries[k.value := e.(blue := Swapped(e.blue, team, next))];
      }
      if next.Some? {
        line := LeaveFor(line, Sides([next.value], []));
      }
      if e.source.FromLine? {
        line := line + [Waiting(team, None)];
      }
      return true;
    }

    method JoinLine(team: Team, alliance: Option<Alliance>, open: bool)
      modifies this
      ensures View() == Next(old(View()), Join(team, alliance, open))
    {
      if !open || Upcoming(entries, team) {
        return;
      }
      var k := LinePosition(line, team);
      if k.Some? {
        line := line[k.value := line[k.value].(alliance := alliance)];
      } else {
        line := line + [Waiting(team, alliance)];
      }
    }

    method MoveInLine(team: Team, index: int) returns (moved: bool)
      modifies this
      ensures moved == LinePosition(old(line), team).Some?
      ensures View() == Next(old(View()), Move(team, index))
    {
      var from := LinePosition(line, team);
      if from.None? {
        return false;
      }
      var entry := line[from.value];
      line := line[..from.value] + line[from.value + 1..];
      var to := PlaceIn(|line|, index);
      line := line[..to] + [entry] + line[to..];
      return true;
    }

    method AddMany(inputs: seq<Input>, replacing: bool)
      modifies this
      ensures View() == Next(old(View()), Import(inputs, replacing))
    {
      hide Numbered, LeaveFor;
      ghost var start := if replacing then View().(entries := Select(entries, OutlivesImport)) else View();
      if replacing {
        entries := Select(entries, OutlivesImport);
      }
      var number := Numbered(entries);
      for i := 0 to |inputs|
        invariant View() == AddedMany(start, inputs[..i]) && number == Numbered(entries)
      {
        assert inputs[..i + 1][..i] == inputs[..i];
        number := number + 1;
        var entry := Entry(inputs[i].id, number, inputs[i].source, inputs[i].sides.red, inputs[i].sides.blue, Queued);
        line := LeaveFor(line, inputs[i].sides);
        ghost var before := entries;
        entries := entries + [entry];
        NumberedNext(before, entry);
        assert entries == before[..|before|] + [entry] + before[|before|..];
      }
      assert inputs[..|inputs|] == inputs;
    }

    static lemma NumberedNext(entries: seq<Entry>, entry: Entry)
      requires entry.number > Numbered(entries)
      ensures Numbered(entries + [entry]) == entry.number
    {
      assert (entries + [entry])[..|entries|] == entries;
    }

    method Update(id: string, red: Option<seq<Team>>, blue: Option<seq<Team>>) returns (done: bool)
      modifies this
      ensures done <==> Find(old(entries), id).Some? && StatusOf(old(entries), id) != Some(Played)
      ensures View() == Next(old(View()), Edit(id, red, blue))
    {
      var k := Find(entries, id);
      if k.None? || entries[k.value].status.Played? {
        return false;
      }
      if red.Some? {
        entries := entries[k.value := entries[k.value].(red := FirstThree(red.value))];
      }
      if blue.Some? {
        entries := entries[k.value := entries[k.value].(blue := FirstThree(blue.value))];
      }
      assert entries == old(entries)[k.value := Edited(old(entries)[k.value], red, blue)];
      return true;
    }
  }
}
