/** What each operation of the queue does, place by place: which entries and
    teams stay, in what order, and where what is new goes. */
module QueueEffects {
  import opened Field
  import opened MatchQueue

  // ── What is left of a list ────────────────────────────────────────

  /** `after` is what stands in `before` at the places `at`, in their order. */
  ghost predicate InPlaces<T>(before: seq<T>, after: seq<T>, at: seq<nat>) {
    && |at| == |after|
    && (forall i: nat | i < |at| :: at[i] < |before| && after[i] == before[at[i]])
    && (forall i: nat, j: nat | i < j < |at| :: at[i] < at[j])
  }

  /** `after` is `before` without what `keep` says goes: the rest in its order,
      and each as it was. */
  ghost predicate KeptIn<T>(before: seq<T>, after: seq<T>, keep: T -> bool) {
    exists at: seq<nat> :: InPlaces(before, after, at) && AreKept(before, keep, at)
  }

  ghost predicate AreKept<T>(before: seq<T>, keep: T -> bool, at: seq<nat>) {
    forall k: nat :: k in at <==> k < |before| && keep(before[k])
  }

  lemma NoneKept<T>(keep: T -> bool)
    ensures KeptIn([], [], keep)
  {
    assert InPlaces<T>([], [], []) && AreKept([], keep, []);
  }

  lemma AllKept<T>(before: seq<T>, keep: T -> bool)
    requires forall k: nat | k < |before| :: keep(before[k])
    ensures KeptIn(before, before, keep)
  {
    var at := seq(|before|, i => i);
    assert InPlaces(before, before, at);
    forall k: nat ensures k in at <==> k < |before| {
      if k < |before| { assert at[k] == k; }
    }
    assert AreKept(before, keep, at);
  }

  lemma KeptMore<T>(before: seq<T>, after: seq<T>, keep: T -> bool, last: T)
    requires KeptIn(before, after, keep)
    ensures KeptIn(before + [last], if keep(last) then after + [last] else after, keep)
  {
    hide InPlaces, AreKept;
    var at: seq<nat> :| InPlaces(before, after, at) && AreKept(before, keep, at);
    OnePlaceMore(before, after, at, last);
    OneMoreKept(before, keep, at, last);
    assert AreKept(before + [last], keep, if keep(last) then at + [|before|] else at);
  }

  lemma OnePlaceMore<T>(before: seq<T>, after: seq<T>, at: seq<nat>, last: T)
    requires InPlaces(before, after, at)
    ensures InPlaces(before + [last], after, at)
    ensures InPlaces(before + [last], after + [last], at + [|before|])
  {
  }

  lemma OneMoreKept<T>(before: seq<T>, keep: T -> bool, at: seq<nat>, last: T)
    requires AreKept(before, keep, at)
    ensures AreKept(before + [last], keep, if keep(last) then at + [|before|] else at)
  {
    var more, n := if keep(last) then at + [|before|] else at, |before|;
    assert (before + [last])[n] == last;
    forall k: nat ensures k in more <==> k < n + 1 && keep((before + [last])[k]) {
      if k < n { assert (before + [last])[k] == before[k]; }
      assert k in more <==> k in at || (keep(last) && k == n);
    }
  }

  /** Whom a match does not take out of the line. */
  function StaysInLine(red: seq<Team>, blue: seq<Team>): Waiting -> bool {
    (w: Waiting) => w.team !in red && w.team !in blue
  }

  /** The line is what it was without the teams that play, every other entry in
      its order and with its preference. */
  ghost predicate LineWithout(before: seq<Waiting>, after: seq<Waiting>, red: seq<Team>, blue: seq<Team>) {
    KeptIn(before, after, StaysInLine(red, blue))
  }

  lemma {:induction false} LeaveForIs(line: seq<Waiting>, s: Sides)
    ensures LineWithout(line, LeaveFor(line, s), s.red, s.blue)
  {
    hide KeptIn;
    if line == [] {
      NoneKept(StaysInLine(s.red, s.blue));
    } else {
      var front, last := line[..|line| - 1], line[|line| - 1];
      LeaveForIs(front, s);
      KeptMore(front, LeaveFor(front, s), StaysInLine(s.red, s.blue), last);
      assert line == front + [last];
    }
  }

  lemma {:induction false} SelectIs(entries: seq<Entry>, keep: Entry -> bool)
    ensures KeptIn(entries, Select(entries, keep), keep)
  {
    hide KeptIn;
    if entries == [] {
      NoneKept(keep);
    } else {
      var front, last := entries[..|entries| - 1], entries[|entries| - 1];
      SelectIs(front, keep);
      KeptMore(front, Select(front, keep), keep, last);
      assert entries == front + [last];
    }
  }

  // ── A match is added ──────────────────────────────────────────────

  /** One more than the highest number given so far. */
  ghost predicate NextNumber(entries: seq<Entry>, n: nat) {
    && n > 0 && (forall i: nat | i < |entries| :: entries[i].number < n)
    && (n > 1 ==> exists i: nat :: i < |entries| && entries[i].number == n - 1)
  }

  lemma {:induction false} NumberedIs(entries: seq<Entry>)
    ensures NextNumber(entries, Numbered(entries) + 1)
  {
    if entries != [] {
      var front, last := entries[..|entries| - 1], entries[|entries| - 1];
      NumberedIs(front);
      assert entries == front + [last];
      if Numbered(entries) == Numbered(front) && Numbered(front) > 0 {
        var i: nat :| i < |front| && front[i].number == Numbered(front);
        assert entries[i] == front[i];
      } else if Numbered(entries) > 0 {
        assert entries[|front|].number == Numbered(entries);
      }
    }
  }

  /** The new entry stands at `k`, and the others around it as they were. */
  ghost predicate PutAt(before: seq<Entry>, after: seq<Entry>, k: nat, entry: Entry) {
    && k <= |before| && |after| == |before| + 1 && after[k] == entry
    && (forall i: nat | i < k :: after[i] == before[i]) && (forall i: nat | k <= i < |before| :: after[i + 1] == before[i])
  }

  /** Where a match goes: to the end, or before the first one still queued. */
  predicate GoesAt(entries: seq<Entry>, k: nat, atFront: bool) {
    k <= |entries|
    && if atFront then (k < |entries| ==> entries[k].status.Queued?) && forall i: nat | i < k :: !entries[i].status.Queued?
       else k == |entries|
  }

  /** From `q` to `q'` one match is added, and its teams leave the line. */
  ghost predicate MatchAdded(q: Queue, q': Queue, id: string, source: Source, s: Sides, atFront: bool) {
    && LineWithout(q.line, q'.line, s.red, s.blue)
    && exists k: nat, n: nat :: GoesAt(q.entries, k, atFront) && NextNumber(q.entries, n)
                               && PutAt(q.entries, q'.entries, k, Entry(id, n, source, s.red, s.blue, Queued))
  }

  lemma AddedIs(q: Queue, id: string, source: Source, s: Sides, atFront: bool)
    ensures MatchAdded(q, Added(q, id, source, s, atFront), id, source, s, atFront)
  {
    LeaveForIs(q.line, s);
    NumberedIs(q.entries);
    var k, n := if atFront then FrontIndex(q.entries) else |q.entries|, Numbered(q.entries) + 1;
    assert GoesAt(q.entries, k, atFront) && NextNumber(q.entries, n)
           && PutAt(q.entries, Added(q, id, source, s, atFront).entries, k, Entry(id, n, source, s.red, s.blue, Queued));
  }

  /** A match added by hand. */
  lemma AddAdds(q: Queue, id: string, source: Source, s: Sides, atFront: bool)
    ensures MatchAdded(q, Next(q, Add(id, source, s, atFront)), id, source, s, atFront)
  {
    hide MatchAdded;
    AddedIs(q, id, source, s, atFront);
  }

  /** A match formed from the line takes its teams out of it, and leaves the
      others in their order; none is formed of a shape that is none, or of
      nobody, or short when that is not allowed. */
  lemma FormAdds(q: Queue, id: string, shape: Shape, allowShort: bool)
    requires DistinctTeams(q.line)
    ensures var q' := Next(q, Form(id, shape, allowShort));
      if IsShape(shape) && q.line != [] && (|q.line| >= shape.red + shape.blue || allowShort)
      then MatchAdded(q, q', id, FromLine, Formed(q.line, shape), true) else q' == q
  {
    hide MatchAdded, WellSeated, Formed, Added;
    FormsInFull(q.line, shape);
    AddedIs(q, id, FromLine, Formed(q.line, shape), true);
  }

  /** Whatever the line: either no match is formed and nothing changes, or one
      is, and the line left is the old one without its teams, in order. */
  lemma FormLeaves(q: Queue, id: string, shape: Shape, allowShort: bool)
    ensures var q' := Next(q, Form(id, shape, allowShort));
      q' == q || MatchAdded(q, q', id, FromLine, Formed(q.line, shape), true)
  {
    hide MatchAdded, Formed, Added;
    AddedIs(q, id, FromLine, Formed(q.line, shape), true);
  }

  // ── Who plays on which side ───────────────────────────────────────

  /** How many of the first `k` there are. */
  ghost function HowMany(some: nat -> bool, k: nat): nat { |set j: nat | j < k && some(j)| }

  lemma HowManyMore(some: nat -> bool, k: nat)
    ensures HowMany(some, k + 1) == HowMany(some, k) + if some(k) then 1 else 0
    ensures HowMany(some, 0) == 0
  {
    var before := set j: nat | j < k && some(j);
    assert (set j: nat | j < k + 1 && some(j)) == if some(k) then before + {k} else before;
    assert (set j: nat | j < 0 && some(j)) == {};
  }

  /** The teams that wait at the places `at`, in their order. */
  ghost predicate Seated(line: seq<Waiting>, teams: seq<Team>, at: seq<nat>) {
    && |at| == |teams|
    && (forall i: nat | i < |at| :: at[i] < |line| && teams[i] == line[at[i]].team)
    && (forall i: nat, j: nat | i < j < |at| :: at[i] < at[j])
  }

  /** The places `at` are those of the first `n` that `there` says. */
  ghost predicate Places(at: seq<nat>, there: nat -> bool, n: nat) { forall k: nat :: k in at <==> k < n && there(k) }

  lemma SeatedMore(line: seq<Waiting>, teams: seq<Team>, at: seq<nat>, there: nat -> bool, n: nat)
    requires n < |line| && Seated(line, teams, at) && Places(at, there, n)
    ensures var more := if there(n) then at + [n] else at;
      Seated(line, if there(n) then teams + [line[n].team] else teams, more) && Places(more, there, n + 1)
  {
    var more := if there(n) then at + [n] else at;
    forall i: nat | i < |at| ensures at[i] < n { assert at[i] in at; }
    forall k: nat ensures k in more <==> k < n + 1 && there(k) {
      assert k in more <==> k in at || (there(n) && k == n);
    }
  }

  /** Who would rather play on `a`. */
  function Prefers(line: seq<Waiting>, a: Alliance): nat -> bool { (k: nat) => k < |line| && line[k].alliance == Some(a) }

  /** Those of them who get it: the first, as many as there are seats. */
  ghost function GetsSide(line: seq<Waiting>, shape: Shape, a: Alliance): nat -> bool {
    (k: nat) => Prefers(line, a)(k) && HowMany(Prefers(line, a), k) < Seats(shape, a)
  }

  predicate Within(shape: Shape, s: Sides) { |s.red| <= shape.red && |s.blue| <= shape.blue }

  /** The first pass after the first `n` in line. */
  ghost predicate ChosenSide(line: seq<Waiting>, shape: Shape, a: Alliance, teams: seq<Team>, n: nat, at: seq<nat>) {
    && Seated(line, teams, at) && Places(at, GetsSide(line, shape, a), n)
    && |teams| == if HowMany(Prefers(line, a), n) < Seats(shape, a) then HowMany(Prefers(line, a), n) else Seats(shape, a)
  }

  lemma ChosenStep(line: seq<Waiting>, shape: Shape, a: Alliance, teams: seq<Team>, n: nat, at: seq<nat>)
    requires n < |line| && ChosenSide(line, shape, a, teams, n, at)
    ensures var there := line[n].alliance == Some(a) && |teams| < Seats(shape, a);
      && (there <==> GetsSide(line, shape, a)(n))
      && ChosenSide(line, shape, a, if there then teams + [line[n].team] else teams, n + 1, if there then at + [n] else at)
  {
    hide HowMany, Seated, Places;
    HowManyMore(Prefers(line, a), n);
    SeatedMore(line, teams, at, GetsSide(line, shape, a), n);
  }

  /** The next in line is seated on the side it prefers, if that has room. */
  lemma PreferStep(line: seq<Waiting>, shape: Shape, a: Alliance, k: nat)
    requires k < |line| && Within(shape, Prefer(line[..k], shape))
    ensures var s, s' := Prefer(line[..k], shape), Prefer(line[..k + 1], shape);
      && Within(shape, s')
      && Side(s', a) == if line[k].alliance == Some(a) && |Side(s, a)| < Seats(shape, a) then Side(s, a) + [line[k].team] else Side(s, a)
  {
    assert line[..k + 1][..k] == line[..k] && line[..k + 1][k] == line[k];
  }

  lemma {:induction false} PreferUpTo(line: seq<Waiting>, shape: Shape, a: Alliance, n: nat) returns (at: seq<nat>)
    requires n <= |line|
    ensures var s := Prefer(line[..n], shape); Within(shape, s) && ChosenSide(line, shape, a, Side(s, a), n, at)
  {
    hide ChosenSide, GetsSide, Seats;
    if n == 0 {
      at := [];
      NobodyThere(line, shape, a);
    } else {
      var k := n - 1;
      at := PreferUpTo(line, shape, a, k);
      PreferStep(line, shape, a, k);
      hide Prefer;
      ChosenStep(line, shape, a, Side(Prefer(line[..k], shape), a), k, at);
      if GetsSide(line, shape, a)(k) { at := at + [k]; }
    }
  }

  lemma NobodyThere(line: seq<Waiting>, shape: Shape, a: Alliance)
    ensures ChosenSide(line, shape, a, [], 0, [])
  {
    HowManyMore(Prefers(line, a), 0);
  }

  /** Who is still to be placed once preferences are met. */
  ghost function FreePlace(line: seq<Waiting>, shape: Shape): nat -> bool {
    (k: nat) => k < |line| && !GetsSide(line, shape, Red)(k) && !GetsSide(line, shape, Blue)(k)
  }

  ghost function SeatsLeft(line: seq<Waiting>, shape: Shape, a: Alliance): nat {
    var wish := HowMany(Prefers(line, a), |line|);
    if wish < Seats(shape, a) then Seats(shape, a) - wish else 0
  }

  /** Whose turn it is, of sides with `red` and `blue` seats left: first the
      side with more room, until both have as much; from then on red, blue,
      red, blue. */
  function Turn(red: nat, blue: nat, t: nat): Alliance {
    var d := if red >= blue then red - blue else blue - red;
    if t < d then if red >= blue then Red else Blue
    else if (t - d) % 2 == 0 then Red else Blue
  }

  /** Who is placed on `a` in turn, as long as there are seats. */
  ghost function FillsSide(line: seq<Waiting>, shape: Shape, a: Alliance): nat -> bool {
    var red, blue := SeatsLeft(line, shape, Red), SeatsLeft(line, shape, Blue);
    (k: nat) => FreePlace(line, shape)(k) && HowMany(FreePlace(line, shape), k) < red + blue
                && Turn(red, blue, HowMany(FreePlace(line, shape), k)) == a
  }

  /** How many of the first `t` turns are red. */
  function Reds(red: nat, blue: nat, t: nat): nat {
    var d := if red >= blue then red - blue else blue - red;
    if t <= d then if red >= blue then t else 0
    else (if red >= blue then d else 0) + (t - d + 1) / 2
  }

  /** The turns are those of the side with more room, red when both have as much. */
  lemma TurnsFair(red: nat, blue: nat, t: nat)
    requires t < red + blue
    ensures var r := Reds(red, blue, t);
      && r <= t && r <= red && t - r <= blue
      && Turn(red, blue, t) == (if red - r >= blue - (t - r) then Red else Blue)
      && (if Turn(red, blue, t).Red? then red - r > 0 else blue - (t - r) > 0)
      && Reds(red, blue, t + 1) == r + if Turn(red, blue, t).Red? then 1 else 0
  {
  }

  lemma {:induction false} FreeIs(line: seq<Waiting>, shape: Shape, k: nat)
    requires DistinctTeams(line) && k < |line|
    ensures FreePlace(line, shape)(k) <==> !Plays(Prefer(line, shape), line[k].team)
  {
    assert line[..|line|] == line;
    var red := PreferUpTo(line, shape, Red, |line|);
    var blue := PreferUpTo(line, shape, Blue, |line|);
    SeatedIff(line, Prefer(line, shape).red, red, GetsSide(line, shape, Red), k);
    SeatedIff(line, Prefer(line, shape).blue, blue, GetsSide(line, shape, Blue), k);
  }

  lemma SeatedIff(line: seq<Waiting>, teams: seq<Team>, at: seq<nat>, there: nat -> bool, k: nat)
    requires DistinctTeams(line) && k < |line| && Seated(line, teams, at) && Places(at, there, |line|)
    ensures line[k].team in teams <==> there(k)
  {
    if line[k].team in teams {
      var i: nat :| i < |teams| && teams[i] == line[k].team;
      assert at[i] in at;
    }
    if there(k) {
      assert k in at;
      var i: nat :| i < |at| && at[i] == k;
    }
  }

  /** The teams of `a` after the second pass over the first `n` in line: those
      of the first pass, and then those placed in turn. */
  ghost predicate FilledSide(line: seq<Waiting>, shape: Shape, a: Alliance, teams: seq<Team>, n: nat, at: seq<nat>) {
    var first := Side(Prefer(line, shape), a);
    && |first| <= |teams| && teams[..|first|] == first
    && Seated(line, teams[|first|..], at) && Places(at, FillsSide(line, shape, a), n)
  }

  lemma NotYet(line: seq<Waiting>, teams: seq<Team>, at: seq<nat>, there: nat -> bool, n: nat)
    requires DistinctTeams(line) && n < |line| && Seated(line, teams, at) && Places(at, there, n)
    ensures line[n].team !in teams
  {
    forall i: nat | i < |teams| ensures teams[i] != line[n].team {
      assert at[i] in at;
    }
  }

  lemma OldTeams(line: seq<Waiting>, shape: Shape, a: Alliance, teams: seq<Team>, n: nat, at: seq<nat>)
    requires DistinctTeams(line) && n < |line| && FilledSide(line, shape, a, teams, n, at)
    ensures line[n].team in teams <==> line[n].team in Side(Prefer(line, shape), a)
  {
    hide Prefer, Seated, Places, DistinctTeams;
    var first := Side(Prefer(line, shape), a);
    NotYet(line, teams[|first|..], at, FillsSide(line, shape, a), n);
    assert teams == first + teams[|first|..];
  }

  lemma SideStep(line: seq<Waiting>, shape: Shape, a: Alliance, teams: seq<Team>, n: nat, at: seq<nat>)
    requires n < |line| && FilledSide(line, shape, a, teams, n, at)
    ensures var there := FillsSide(line, shape, a)(n);
      FilledSide(line, shape, a, if there then teams + [line[n].team] else teams, n + 1, if there then at + [n] else at)
  {
    hide Prefer, Seated, Places;
    var first := Side(Prefer(line, shape), a);
    SeatedMore(line, teams[|first|..], at, FillsSide(line, shape, a), n);
    assert (teams + [line[n].team])[|first|..] == teams[|first|..] + [line[n].team];
    assert (teams + [line[n].team])[..|first|] == first;
  }

  function TurnsTaken(free: nat, seats: nat): nat { if free < seats then free else seats }

  /** As many as have had their turn are placed, red and blue by turns. */
  ghost predicate TurnsHad(line: seq<Waiting>, shape: Shape, s: Sides, n: nat) {
    var r, b := SeatsLeft(line, shape, Red), SeatsLeft(line, shape, Blue);
    var t := TurnsTaken(HowMany(FreePlace(line, shape), n), r + b);
    |s.red| == shape.red - r + Reds(r, b, t) && |s.blue| == shape.blue - b + (t - Reds(r, b, t))
  }

  /** Who is taken in next, and where: it is placed in its turn, or not at all. */
  lemma TakesTurn(line: seq<Waiting>, shape: Shape, s: Sides, n: nat)
    requires n < |line| && TurnsHad(line, shape, s, n) && (FreePlace(line, shape)(n) <==> !Plays(s, line[n].team))
    ensures var s' := TakeIn(shape, s, line[n].team);
      && TurnsHad(line, shape, s', n + 1)
      && s'.red == (if FillsSide(line, shape, Red)(n) then s.red + [line[n].team] else s.red)
      && s'.blue == (if FillsSide(line, shape, Blue)(n) then s.blue + [line[n].team] else s.blue)
  {
    hide HowMany, Reds, Turn, GetsSide, Prefers, Plays;
    var r, b := SeatsLeft(line, shape, Red), SeatsLeft(line, shape, Blue);
    HowManyMore(FreePlace(line, shape), n);
    var free := HowMany(FreePlace(line, shape), n);
    if free < r + b { TurnsFair(r, b, free); }
  }

  lemma {:induction false} FillUpTo(line: seq<Waiting>, shape: Shape, n: nat) returns (red: seq<nat>, blue: seq<nat>)
    requires DistinctTeams(line) && n <= |line|
    ensures var s := Fill(line[..n], shape, Prefer(line, shape));
      && FilledSide(line, shape, Red, s.red, n, red) && FilledSide(line, shape, Blue, s.blue, n, blue)
      && TurnsHad(line, shape, s, n)
  {
    hide FilledSide, TurnsHad, TakeIn, Prefer, FillsSide, FreePlace, DistinctTeams;
    if n == 0 {
      red, blue := [], [];
      NoneFilled(line, shape);
    } else {
      var k := n - 1;
      red, blue := FillUpTo(line, shape, k);
      var s := Fill(line[..k], shape, Prefer(line, shape));
      assert line[..n][..k] == line[..k] && line[..n][k] == line[k];
      FreeIs(line, shape, k);
      OldTeams(line, shape, Red, s.red, k, red);
      OldTeams(line, shape, Blue, s.blue, k, blue);
      TakesTurn(line, shape, s, k);
      SideStep(line, shape, Red, s.red, k, red);
      SideStep(line, shape, Blue, s.blue, k, blue);
      if FillsSide(line, shape, Red)(k) { red := red + [k]; }
      if FillsSide(line, shape, Blue)(k) { blue := blue + [k]; }
    }
  }

  lemma NoneFilled(line: seq<Waiting>, shape: Shape)
    ensures var first := Prefer(line, shape);
      && FilledSide(line, shape, Red, first.red, 0, []) && FilledSide(line, shape, Blue, first.blue, 0, [])
      && TurnsHad(line, shape, first, 0)
  {
    assert line[..|line|] == line;
    var red := PreferUpTo(line, shape, Red, |line|);
    var blue := PreferUpTo(line, shape, Blue, |line|);
    HowManyMore(FreePlace(line, shape), 0);
    var first := Prefer(line, shape);
    assert first.red[|first.red|..] == [] && first.blue[|first.blue|..] == [];
  }

  /** Who plays on `a` in a match formed from the line, and in what order: first
      those that would rather play there, as many as there are seats; then, in
      turn, the others, as many as there are seats left. */
  lemma FormedIs(line: seq<Waiting>, shape: Shape, a: Alliance) returns (chosen: seq<nat>, filled: seq<nat>)
    requires DistinctTeams(line)
    ensures var teams := Side(Formed(line, shape), a);
      && |teams| == |chosen| + |filled|
      && Seated(line, teams[..|chosen|], chosen) && Places(chosen, GetsSide(line, shape, a), |line|)
      && Seated(line, teams[|chosen|..], filled) && Places(filled, FillsSide(line, shape, a), |line|)
  {
    hide Prefer, Fill, TurnsHad, FillsSide, GetsSide, Places, DistinctTeams;
    assert line[..|line|] == line;
    chosen := PreferUpTo(line, shape, a, |line|);
    var red, blue := FillUpTo(line, shape, |line|);
    filled := if a.Red? then red else blue;
  }

  // ── Matches as they go ────────────────────────────────────────────

  /** Only the entry at `k` differs, which is now `entry`. */
  ghost predicate OnlyAt(q: Queue, q': Queue, k: nat, entry: Entry) {
    && k < |q.entries| && |q'.entries| == |q.entries| && q'.entries[k] == entry && q'.line == q.line
    && forall i: nat | i < |q.entries| && i != k :: q'.entries[i] == q.entries[i]
  }

  /** The entry at `k` is the first of that id. */
  ghost predicate FirstOf(entries: seq<Entry>, id: string, k: nat) {
    k < |entries| && entries[k].id == id && forall j: nat | j < k :: entries[j].id != id
  }

  ghost predicate Listed(entries: seq<Entry>, id: string) { exists k: nat :: k < |entries| && entries[k].id == id }

  lemma FindIs(entries: seq<Entry>, id: string)
    ensures Find(entries, id).None? <==> !Listed(entries, id)
    ensures forall k: nat :: FirstOf(entries, id, k) <==> Find(entries, id) == Some(k)
  {
  }

  /** Removed, unless it is being played. */
  lemma RemoveRemoves(q: Queue, id: string)
    ensures var q' := Next(q, Remove(id));
      KeptIn(q.entries, q'.entries, (e: Entry) => e.id != id || e.status.Playing?) && q'.line == q.line
  {
    SelectIs(q.entries, Survives(id));
    SameKeep(q.entries, Select(q.entries, Survives(id)), Survives(id), (e: Entry) => e.id != id || e.status.Playing?);
  }

  lemma SameKeep<T>(before: seq<T>, after: seq<T>, keep: T -> bool, also: T -> bool)
    requires KeptIn(before, after, keep) && forall k: nat | k < |before| :: keep(before[k]) == also(before[k])
    ensures KeptIn(before, after, also)
  {
    var at: seq<nat> :| InPlaces(before, after, at) && AreKept(before, keep, at);
    assert AreKept(before, also, at);
  }

  /** Cleared of what was played or skipped, or of all that is not played now. */
  lemma ClearClears(q: Queue)
    ensures var q' := Next(q, ClearPlayed);
      KeptIn(q.entries, q'.entries, (e: Entry) => !e.status.Played? && !e.status.Skipped?) && q'.line == q.line
    ensures var q' := Next(q, ClearAll);
      KeptIn(q.entries, q'.entries, (e: Entry) => e.status.Playing?) && q'.line == q.line
  {
    SelectIs(q.entries, StillToPlay);
    SameKeep(q.entries, Select(q.entries, StillToPlay), StillToPlay, (e: Entry) => !e.status.Played? && !e.status.Skipped?);
    SelectIs(q.entries, IsPlaying);
    SameKeep(q.entries, Select(q.entries, IsPlaying), IsPlaying, (e: Entry) => e.status.Playing?);
  }

  /** A match is skipped unless it is being played or was, and put back if it
      was skipped or on deck. */
  lemma SkipSkips(q: Queue, id: string, k: nat)
    requires FirstOf(q.entries, id, k)
    ensures var q', e := Next(q, Skip(id)), q.entries[k];
      if e.status.Playing? || e.status.Played? then q' == q else OnlyAt(q, q', k, e.(status := Skipped))
    ensures var q', e := Next(q, Requeue(id)), q.entries[k];
      if e.status.Skipped? || e.status.OnDeck? then OnlyAt(q, q', k, e.(status := Queued)) else q' == q
  {
    FindIs(q.entries, id);
  }

  /** No operation finds an entry that is not listed. */
  lemma UnlistedNothing(q: Queue, id: string, team: Team, red: Option<seq<Team>>, blue: Option<seq<Team>>)
    requires !Listed(q.entries, id)
    ensures Next(q, Skip(id)) == q && Next(q, Requeue(id)) == q && Next(q, MarkOnDeck(id)) == q
    ensures Next(q, Replace(id, team)) == q && Next(q, Edit(id, red, blue)) == q
  {
    FindIs(q.entries, id);
  }

  /** What becomes of another entry when the match of that id goes on deck. */
  function OffDeck(e: Entry, id: string): Entry { if e.status.OnDeck? && e.id != id then e.(status := Queued) else e }

  /** A match goes on deck unless it is being played or was, and any other that
      was on deck is queued again. */
  lemma DeckMarks(q: Queue, id: string, k: nat)
    requires FirstOf(q.entries, id, k)
    ensures var q', e := Next(q, MarkOnDeck(id)), q.entries[k];
      if e.status.Playing? || e.status.Played? then q' == q
      else && |q'.entries| == |q.entries| && q'.line == q.line && q'.entries[k] == e.(status := OnDeck)
           && forall i: nat | i < |q.entries| && i != k :: q'.entries[i] == OffDeck(q.entries[i], id)
  {
    FindIs(q.entries, id);
    FindIs(SteppedDown(q.entries, id), id);
    assert FirstOf(SteppedDown(q.entries, id), id, k);
  }

  lemma {:induction false} FirstIsFirst(entries: seq<Entry>, status: EntryStatus)
    ensures var k := FirstIs(entries, status);
      forall i: nat | i < (if k.Some? then k.value else |entries|) :: entries[i].status != status
  {
    if entries != [] {
      var front := entries[..|entries| - 1];
      FirstIsFirst(front, status);
      assert forall i: nat | i < |front| :: front[i] == entries[i];
    }
  }

  /** The first entry with that status goes on to the next; no other does. */
  ghost predicate GoesOn(q: Queue, q': Queue, from: EntryStatus, to: EntryStatus) {
    || (q' == q && forall i: nat | i < |q.entries| :: q.entries[i].status != from)
    || exists k: nat :: k < |q.entries| && q.entries[k].status == from && (forall i: nat | i < k :: q.entries[i].status != from)
                        && OnlyAt(q, q', k, q.entries[k].(status := to))
  }

  /** A match begins with the one on deck, and ends with the one being played. */
  lemma MatchGoesOn(q: Queue)
    ensures GoesOn(q, Next(q, MarkPlaying), OnDeck, Playing) && GoesOn(q, Next(q, MarkPlayed), Playing, Played)
  {
    FirstIsFirst(q.entries, OnDeck);
    FirstIsFirst(q.entries, Playing);
    var k, l := FirstIs(q.entries, OnDeck), FirstIs(q.entries, Playing);
    if k.Some? {
      assert OnlyAt(q, Next(q, MarkPlaying), k.value, q.entries[k.value].(status := Playing));
    }
    if l.Some? {
      assert OnlyAt(q, Next(q, MarkPlayed), l.value, q.entries[l.value].(status := Played));
    }
  }

  /** `now` is the side asked for, cut to three teams, or the side as it was. */
  ghost predicate SideEdited(was: seq<Team>, asked: Option<seq<Team>>, now: seq<Team>) {
    if asked.None? then now == was
    else |now| == (if |asked.value| < 3 then |asked.value| else 3) && now <= asked.value
  }

  lemma EditEdits(q: Queue, id: string, k: nat, red: Option<seq<Team>>, blue: Option<seq<Team>>)
    requires FirstOf(q.entries, id, k)
    ensures var q', e := Next(q, Edit(id, red, blue)), q.entries[k];
      if e.status.Played? then q' == q
      else k < |q'.entries| && OnlyAt(q, q', k, e.(red := q'.entries[k].red, blue := q'.entries[k].blue))
           && SideEdited(e.red, red, q'.entries[k].red) && SideEdited(e.blue, blue, q'.entries[k].blue)
  {
    FindIs(q.entries, id);
  }

  // ── The line ──────────────────────────────────────────────────────

  ghost predicate Due(entries: seq<Entry>, team: Team) {
    exists i: nat :: i < |entries| && (entries[i].status.Queued? || entries[i].status.OnDeck?)
                     && (team in entries[i].red || team in entries[i].blue)
  }

  lemma DueIff(entries: seq<Entry>, team: Team)
    ensures Upcoming(entries, team) <==> Due(entries, team)
  {
    if Upcoming(entries, team) {
      var e :| e in entries && (e.status.Queued? || e.status.OnDeck?) && (team in e.red || team in e.blue);
      var i: nat :| i < |entries| && entries[i] == e;
    }
    if Due(entries, team) {
      var i: nat :| i < |entries| && (entries[i].status.Queued? || entries[i].status.OnDeck?)
                    && (team in entries[i].red || team in entries[i].blue);
      assert entries[i] in entries;
    }
  }

  lemma {:induction false} PositionIsFirst(line: seq<Waiting>, team: Team)
    ensures var k := LinePosition(line, team); k.Some? ==> forall i: nat | i < k.value :: line[i].team != team
  {
    if line != [] && line[0].team != team { PositionIsFirst(line[1..], team); }
  }

  /** A team joins the end of an open line, unless a match awaits it; if it is
      in line already only its preference changes. */
  lemma JoinJoins(q: Queue, team: Team, alliance: Option<Alliance>, open: bool)
    ensures var q' := Next(q, Join(team, alliance, open));
      && q'.entries == q.entries
      && (if !open || Due(q.entries, team) then q' == q
          else if !InLine(q.line, team) then q'.line == q.line + [Waiting(team, alliance)]
          else exists k: nat :: k < |q.line| && q.line[k].team == team && (forall i: nat | i < k :: q.line[i].team != team)
                 && q'.line == q.line[k := Waiting(team, alliance)])
  {
    DueIff(q.entries, team);
    PositionIsFirst(q.line, team);
    assert LinePosition(q.line, team).Some? <==> InLine(q.line, team);
  }

  /** A team leaves, and the others stay in their order. */
  lemma LeaveLeaves(q: Queue, team: Team)
    ensures var q' := Next(q, Leave(team)); LineWithout(q.line, q'.line, [team], []) && q'.entries == q.entries
  {
    LeaveForIs(q.line, Sides([team], []));
  }

  /** Where a team asked to stand at `index` among `n` others stands: a
      negative index counts from the end, and nobody stands beyond either end. */
  function Asked(n: nat, index: int): nat {
    if index > n then n else if index >= 0 then index else if index + n < 0 then 0 else index + n
  }

  /** Where the team that stood at `i` stands once that at `k` moved to `to`. */
  function MovesTo(i: nat, k: nat, to: nat): nat {
    if i == k then to
    else
      var j := if i < k then i else i - 1;
      if j < to then j else j + 1
  }

  /** From `before` to `after` the one at `k` moved to `to`. */
  ghost predicate MovedTo(before: seq<Waiting>, after: seq<Waiting>, k: nat, to: nat) {
    && |after| == |before|
    && forall i: nat | i < |before| :: MovesTo(i, k, to) < |after| && after[MovesTo(i, k, to)] == before[i]
  }

  lemma TakenAndPut(line: seq<Waiting>, k: nat, to: nat)
    requires k < |line| && to < |line|
    ensures var others := line[..k] + line[k + 1..]; MovedTo(line, others[..to] + [line[k]] + others[to..], k, to)
  {
    var others := line[..k] + line[k + 1..];
    var after := others[..to] + [line[k]] + others[to..];
    forall i: nat | i < |line| ensures MovesTo(i, k, to) < |after| && after[MovesTo(i, k, to)] == line[i] {
      if i != k {
        var j := if i < k then i else i - 1;
        assert others[j] == line[i];
      }
    }
  }

  /** A team moves to where it is asked to stand, and the others close up and
      make room, in their order. */
  lemma MoveMoves(q: Queue, team: Team, index: int, k: nat)
    requires k < |q.line| && q.line[k].team == team && forall i: nat | i < k :: q.line[i].team != team
    ensures var q' := Next(q, Move(team, index)); q'.entries == q.entries && MovedTo(q.line, q'.line, k, Asked(|q.line| - 1, index))
  {
    hide MovedTo;
    PositionIsFirst(q.line, team);
    assert LinePosition(q.line, team) == Some(k);
    TakenAndPut(q.line, k, Asked(|q.line| - 1, index));
  }

  lemma MoveNobody(q: Queue, team: Team, index: int)
    requires !InLine(q.line, team)
    ensures Next(q, Move(team, index)) == q
  {
    assert LinePosition(q.line, team).None?;
  }

  // ── A schedule ────────────────────────────────────────────────────

  /** The matches of a schedule, numbered on from `n`. */
  ghost predicate Scheduled(entries: seq<Entry>, inputs: seq<Input>, n: nat) {
    && |entries| == |inputs|
    && forall i: nat | i < |inputs| :: entries[i] == Entry(inputs[i].id, n + i, inputs[i].source, inputs[i].sides.red, inputs[i].sides.blue, Queued)
  }

  ghost predicate PlaysIn(inputs: seq<Input>, team: Team) {
    exists i: nat :: i < |inputs| && (team in inputs[i].sides.red || team in inputs[i].sides.blue)
  }

  ghost function StaysFor(inputs: seq<Input>): Waiting -> bool { (w: Waiting) => !PlaysIn(inputs, w.team) }

  /** The highest number but one more of these is the last one's. */
  lemma NumberedOn(before: seq<Entry>, entry: Entry, n: nat)
    requires NextNumber(before, n) && entry.number == n
    ensures NextNumber(before + [entry], n + 1)
  {
    assert (before + [entry])[|before|] == entry;
  }

  lemma OneNumber(entries: seq<Entry>, n: nat, m: nat)
    requires NextNumber(entries, n) && NextNumber(entries, m)
    ensures n == m
  {
  }

  lemma KeptTwice<T>(a: seq<T>, b: seq<T>, c: seq<T>, first: T -> bool, second: T -> bool, both: T -> bool)
    requires KeptIn(a, b, first) && KeptIn(b, c, second) && forall t: T | t in a :: both(t) <==> first(t) && second(t)
    ensures KeptIn(a, c, both)
  {
    hide InPlaces, AreKept;
    var at1: seq<nat> :| InPlaces(a, b, at1) && AreKept(a, first, at1);
    var at2: seq<nat> :| InPlaces(b, c, at2) && AreKept(b, second, at2);
    PlacesThrough(a, b, c, at1, at2);
    forall k: nat | k < |a| ensures k in Through(a, b, c, at1, at2) <==> k in at1 && second(a[k]) {
      KeptThrough(a, b, c, at1, at2, second, k);
    }
    AllThrough(a, Through(a, b, c, at1, at2), at1, first, second, both);
  }

  ghost function Through<T>(a: seq<T>, b: seq<T>, c: seq<T>, at1: seq<nat>, at2: seq<nat>): seq<nat>
    requires InPlaces(a, b, at1) && InPlaces(b, c, at2)
  {
    seq(|at2|, i requires 0 <= i < |at2| => at1[at2[i]])
  }

  lemma PlacesThrough<T>(a: seq<T>, b: seq<T>, c: seq<T>, at1: seq<nat>, at2: seq<nat>)
    requires InPlaces(a, b, at1) && InPlaces(b, c, at2)
    ensures InPlaces(a, c, Through(a, b, c, at1, at2))
  {
  }

  lemma KeptThrough<T>(a: seq<T>, b: seq<T>, c: seq<T>, at1: seq<nat>, at2: seq<nat>, second: T -> bool, k: nat)
    requires InPlaces(a, b, at1) && InPlaces(b, c, at2) && AreKept(b, second, at2) && k < |a|
    ensures k in Through(a, b, c, at1, at2) <==> k in at1 && second(a[k])
  {
    var at := Through(a, b, c, at1, at2);
    if k in at {
      var i: nat :| i < |at| && at[i] == k;
      assert at2[i] in at2;
    }
    if k in at1 && second(a[k]) {
      var j: nat :| j < |at1| && at1[j] == k;
      assert j in at2;
      var i: nat :| i < |at2| && at2[i] == j;
      assert at[i] == k;
    }
  }

  lemma AllThrough<T>(a: seq<T>, at: seq<nat>, at1: seq<nat>, first: T -> bool, second: T -> bool, both: T -> bool)
    requires AreKept(a, first, at1) && (forall t: T | t in a :: both(t) <==> first(t) && second(t))
    requires (forall k: nat | k < |a| :: k in at <==> k in at1 && second(a[k])) && forall i: nat | i < |at| :: at[i] < |a|
    ensures AreKept(a, both, at)
  {
    forall k: nat ensures k in at <==> k < |a| && both(a[k]) {
      if k < |a| { assert a[k] in a; }
    }
  }

  /** From `before` to `after` the matches of the schedule come last, in their
      order, numbered on, and their teams leave the line. */
  ghost predicate ScheduleAdded(before: Queue, after: Queue, inputs: seq<Input>, n: nat) {
    && NextNumber(before.entries, n)
    && before.entries <= after.entries && Scheduled(after.entries[|before.entries|..], inputs, n)
    && KeptIn(before.line, after.line, StaysFor(inputs))
  }

  lemma OneMoreTeam(inputs: seq<Input>, last: Input, team: Team)
    ensures PlaysIn(inputs + [last], team) <==> PlaysIn(inputs, team) || team in last.sides.red || team in last.sides.blue
  {
    var all := inputs + [last];
    if PlaysIn(inputs, team) {
      var i: nat :| i < |inputs| && (team in inputs[i].sides.red || team in inputs[i].sides.blue);
      assert all[i] == inputs[i];
    }
    assert all[|inputs|] == last;
  }

  lemma AddedAtEnd(q: Queue, id: string, source: Source, s: Sides, n: nat)
    requires NextNumber(q.entries, n)
    ensures var q' := Added(q, id, source, s, false);
      && q'.entries == q.entries + [Entry(id, n, source, s.red, s.blue, Queued)]
      && NextNumber(q'.entries, n + 1) && LineWithout(q.line, q'.line, s.red, s.blue)
  {
    LeaveForIs(q.line, s);
    NumberedIs(q.entries);
    OneNumber(q.entries, n, Numbered(q.entries) + 1);
    NumberedOn(q.entries, Entry(id, n, source, s.red, s.blue, Queued), n);
    assert q.entries[..|q.entries|] == q.entries;
  }

  lemma {:induction false} AddedManyAre(q: Queue, inputs: seq<Input>, n: nat)
    requires NextNumber(q.entries, n)
    ensures ScheduleAdded(q, AddedMany(q, inputs), inputs, n) && NextNumber(AddedMany(q, inputs).entries, n + |inputs|)
  {
    hide KeptIn, NextNumber, Added;
    if inputs == [] {
      AllKept(q.line, StaysFor(inputs));
    } else {
      var front, last := inputs[..|inputs| - 1], inputs[|inputs| - 1];
      AddedManyAre(q, front, n);
      var mid, q' := AddedMany(q, front), AddedMany(q, inputs);
      AddedAtEnd(mid, last.id, last.source, last.sides, n + |front|);
      assert inputs == front + [last];
      assert q'.entries[|q.entries|..] == mid.entries[|q.entries|..] + [q'.entries[|mid.entries|]];
      forall w: Waiting | w in q.line ensures StaysFor(inputs)(w) <==> StaysFor(front)(w) && StaysInLine(last.sides.red, last.sides.blue)(w) {
        OneMoreTeam(front, last, w.team);
      }
      KeptTwice(q.line, mid.line, q'.line, StaysFor(front), StaysInLine(last.sides.red, last.sides.blue), StaysFor(inputs));
    }
  }

  /** What is left of the list for a schedule to follow. */
  function StaysForImport(replacing: bool): Entry -> bool {
    (e: Entry) => !replacing || (!e.status.Queued? && !e.status.Skipped?)
  }

  /** An imported schedule goes after the matches there are, or after those of
      them that are neither queued nor skipped. */
  lemma ImportAdds(q: Queue, inputs: seq<Input>, replacing: bool)
    ensures exists kept: seq<Entry>, n: nat ::
      && KeptIn(q.entries, kept, StaysForImport(replacing))
      && ScheduleAdded(q.(entries := kept), Next(q, Import(inputs, replacing)), inputs, n)
  {
    hide KeptIn, ScheduleAdded, NextNumber;
    var kept := if replacing then Select(q.entries, OutlivesImport) else q.entries;
    var n := Numbered(kept) + 1;
    NumberedIs(kept);
    AddedManyAre(q.(entries := kept), inputs, n);
    if replacing {
      SelectIs(q.entries, OutlivesImport);
      SameKeep(q.entries, kept, OutlivesImport, StaysForImport(replacing));
    } else {
      AllKept(q.entries, StaysForImport(replacing));
    }
    assert q.(entries := q.entries) == q;
    assert KeptIn(q.entries, kept, StaysForImport(replacing));
    assert ScheduleAdded(q.(entries := kept), Next(q, Import(inputs, replacing)), inputs, n);
  }

  // ── A substitute ──────────────────────────────────────────────────

  /** A team's first place on a side. */
  ghost predicate StandsAt(teams: seq<Team>, team: Team, k: nat) {
    k < |teams| && teams[k] == team && forall i: nat | i < k :: teams[i] != team
  }

  lemma {:induction false} IndexIs(teams: seq<Team>, team: Team)
    requires team in teams
    ensures StandsAt(teams, team, IndexOf(teams, team))
  {
    if teams[0] != team {
      IndexIs(teams[1..], team);
      var k := IndexOf(teams[1..], team);
      forall i: nat | i < k + 1 ensures teams[i] != team {
        if i > 0 { assert teams[1..][i - 1] == teams[i]; }
      }
    }
  }

  /** The side with `next` where `team` stood, or one shorter, the others in
      their places. */
  ghost predicate Substituted(was: seq<Team>, team: Team, next: Option<Team>, now: seq<Team>) {
    exists k: nat :: StandsAt(was, team, k) && now == if next.Some? then was[k := next.value] else was[..k] + was[k + 1..]
  }

  /** The first in line that does not play in the match. */
  ghost predicate NextFree(line: seq<Waiting>, e: Entry, next: Option<Team>) {
    if next.None? then forall i: nat | i < |line| :: line[i].team in e.red || line[i].team in e.blue
    else exists k: nat :: k < |line| && line[k].team == next.value && next.value !in e.red && next.value !in e.blue
                          && forall i: nat | i < k :: line[i].team in e.red || line[i].team in e.blue
  }

  lemma {:induction false} FreeIsFirst(line: seq<Waiting>, s: Sides)
    ensures var k := FirstFree(line, s); k.Some? ==> forall i: nat | i < k.value :: Plays(s, line[i].team)
  {
    if line != [] && Plays(s, line[0].team) { FreeIsFirst(line[1..], s); }
  }

  /** The team named goes out of the match, the first free one in line takes its
      place and leaves the line, and the one that went out goes to the end of
      the line if its match was formed from there. */
  ghost predicate Stood(q: Queue, q': Queue, k: nat, team: Team, next: Option<Team>)
    requires k < |q.entries|
  {
    var e := q.entries[k];
    && k < |q'.entries| && |q'.entries| == |q.entries|
    && NextFree(q.line, e, next)
    && q'.entries == q.entries[k := e.(red := q'.entries[k].red, blue := q'.entries[k].blue)]
    && (if team in e.red then Substituted(e.red, team, next, q'.entries[k].red) && q'.entries[k].blue == e.blue
        else Substituted(e.blue, team, next, q'.entries[k].blue) && q'.entries[k].red == e.red)
    && exists line: seq<Waiting> :: TakenFrom(q.line, next, line)
                                    && q'.line == if e.source.FromLine? then line + [Waiting(team, None)] else line
  }

  /** The line without the substitute. */
  ghost predicate TakenFrom(before: seq<Waiting>, next: Option<Team>, after: seq<Waiting>) {
    if next.Some? then LineWithout(before, after, [next.value], []) else after == before
  }

  lemma ReplaceSubstitutes(q: Queue, id: string, team: Team, k: nat) returns (next: Option<Team>)
    requires FirstOf(q.entries, id, k)
    ensures var q', e := Next(q, Replace(id, team)), q.entries[k];
      if !e.status.Playing? && !e.status.Played? && (team in e.red || team in e.blue) then Stood(q, q', k, team, next) else q' == q
  {
    hide LineWithout, Substituted;
    FindIs(q.entries, id);
    var e := q.entries[k];
    next := None;
    if MayReplace(q, id, team) {
      next := Replacement(q, id, team);
      FreeIsFirst(q.line, Sides(e.red, e.blue));
      SwappedIs(if team in e.red then e.red else e.blue, team, next);
      var line := if next.None? then q.line else LeaveFor(q.line, Sides([next.value], []));
      if next.Some? { LeaveForIs(q.line, Sides([next.value], [])); }
      assert NextFree(q.line, e, next) && TakenFrom(q.line, next, line);
      assert Stood(q, Replaced(q, id, team), k, team, next);
    }
  }

  lemma SwappedIs(teams: seq<Team>, team: Team, next: Option<Team>)
    requires team in teams
    ensures Substituted(teams, team, next, Swapped(teams, team, next))
  {
    IndexIs(teams, team);
  }
}
