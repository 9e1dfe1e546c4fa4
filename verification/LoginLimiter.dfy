/** The limit on typed logins: a sliding window of attempts per address, and
    one over all of them. Times are in milliseconds. */
module LoginLimiter {
  import opened Field

  const WINDOW: int := 60_000
  const MAX_PER_ADDRESS: nat := 5
  const MAX_OVERALL: nat := 30
  const MAX_ADDRESSES: nat := 1000

  /** The key the attempts of every address are kept under. */
  const EVERYONE: string := "*"

  type Attempts = map<string, seq<int>>

  /** Those of the attempts that still count at `now`. */
  function Recent(times: seq<int>, now: int): seq<int> {
    if times == [] then []
    else
      var before := Recent(times[..|times| - 1], now);
      if times[|times| - 1] > now - WINDOW then before + [times[|times| - 1]] else before
  }

  function Listed(a: Attempts, key: string): seq<int> { if key in a then a[key] else [] }

  /** The attempts that are at their limit, if any are. */
  function Full(a: Attempts, address: string, now: int): seq<int> {
    var mine, overall := Recent(Listed(a, address), now), Recent(Listed(a, EVERYONE), now);
    if |mine| >= MAX_PER_ADDRESS then mine else if |overall| >= MAX_OVERALL then overall else []
  }

  predicate Admits(a: Attempts, address: string, now: int) { Full(a, address, now) == [] }

  predicate Flushes(a: Attempts) { |a| > MAX_ADDRESSES }

  function Admitted(a: Attempts, address: string, now: int): Attempts {
    (if Flushes(a) then map[] else a)[address := Recent(Listed(a, address), now) + [now]]
                                     [EVERYONE := Recent(Listed(a, EVERYONE), now) + [now]]
  }

  class LoginLimiter {
    var attempts: Attempts

    constructor ()
      ensures attempts == map[]
    {
      attempts := map[];
    }

    /** Counts an attempt. Returns how long to wait if it is over a limit. */
    method Take(address: string, now: int) returns (wait: Option<int>)
      modifies this
      ensures wait.None? <==> Admits(old(attempts), address, now)
      ensures wait.None? ==> attempts == Admitted(old(attempts), address, now)
      ensures wait.Some? ==> attempts == old(attempts) && wait.value == Full(attempts, address, now)[0] + WINDOW - now
    {
      var mine := Recent(Listed(attempts, address), now);
      var overall := Recent(Listed(attempts, EVERYONE), now);
      if |mine| >= MAX_PER_ADDRESS {
        return Some(mine[0] + WINDOW - now);
      }
      if |overall| >= MAX_OVERALL {
        return Some(overall[0] + WINDOW - now);
      }
      if |attempts| > MAX_ADDRESSES {
        attempts := map[];
      }
      attempts := attempts[address := mine + [now]];
      attempts := attempts[EVERYONE := overall + [now]];
      return None;
    }

    method Clear(address: string)
      modifies this
      ensures attempts == old(attempts) - {address}
    {
      attempts := attempts - {address};
    }
  }

  // ── Windows ───────────────────────────────────────────────────────

  /** How many of the times fall in the minute that ends at `end`, its
      beginning left out. */
  function InWindow(times: seq<int>, end: int): nat {
    if times == [] then 0
    else
      var last := times[|times| - 1];
      InWindow(times[..|times| - 1], end) + if end - WINDOW < last <= end then 1 else 0
  }

  predicate AllBy(times: seq<int>, now: int) { forall i: nat | i < |times| :: times[i] <= now }

  lemma {:induction false} RecentIsWindow(times: seq<int>, now: int)
    requires AllBy(times, now)
    ensures |Recent(times, now)| == InWindow(times, now)
  {
    if times != [] {
      RecentIsWindow(times[..|times| - 1], now);
    }
  }

  /** Every window of a longer run of times holds at most what the window
      ending at the last of them does. */
  lemma {:induction false} WindowsFromLast(times: seq<int>, now: int, end: int)
    requires AllBy(times, now) && end - WINDOW >= now - WINDOW
    ensures InWindow(times, end) <= InWindow(times, now)
  {
    if times != [] {
      WindowsFromLast(times[..|times| - 1], now, end);
    }
  }

  lemma {:induction false} RecentOfRecent(times: seq<int>, now: int, later: int)
    requires now <= later
    ensures Recent(Recent(times, now), later) == Recent(times, later)
  {
    if times != [] {
      var front, last := times[..|times| - 1], times[|times| - 1];
      RecentOfRecent(front, now, later);
      if last > now - WINDOW {
        assert (Recent(front, now) + [last])[..|Recent(front, now)|] == Recent(front, now);
      }
    }
  }

  lemma RecentOfMore(times: seq<int>, t: int, now: int)
    ensures Recent(times + [t], now) == Recent(times, now) + if t > now - WINDOW then [t] else []
  {
  }

  lemma {:induction false} RecentListed(times: seq<int>, now: int)
    ensures forall t :: t in Recent(times, now) ==> t in times && t > now - WINDOW
  {
    if times != [] {
      RecentListed(times[..|times| - 1], now);
    }
  }

  // ── Runs ──────────────────────────────────────────────────────────

  datatype Event = Take(address: string, now: int) | Clear(address: string)

  function Step(a: Attempts, e: Event): Attempts {
    match e
    case Take(address, now) => if Admits(a, address, now) then Admitted(a, address, now) else a
    case Clear(address) => a - {address}
  }

  function Run(a: Attempts, run: seq<Event>): Attempts {
    if run == [] then a else Step(Run(a, run[..|run| - 1]), run[|run| - 1])
  }

  /** When the run admitted someone under `key`: an address, or everyone. */
  function Times(a: Attempts, run: seq<Event>, key: string): seq<int> {
    if run == [] then []
    else
      var before, last := run[..|run| - 1], run[|run| - 1];
      Times(a, before, key) + if Counts(Run(a, before), last, key) then [last.now] else []
  }

  /** The clock does not go back. */
  ghost predicate Monotone(run: seq<Event>) {
    forall i: nat, j: nat | i < j < |run| && run[i].Take? && run[j].Take? :: run[i].now <= run[j].now
  }

  /** What takes the attempts under `key` off the books: a clear, or the flush
      an admission of another address sets off. */
  predicate Forgets(a: Attempts, e: Event, key: string) {
    match e
    case Clear(address) => address == key
    case Take(address, now) => Admits(a, address, now) && Flushes(a) && address != key && key != EVERYONE
  }

  ghost predicate NeverForgets(a: Attempts, run: seq<Event>, key: string) {
    forall i: nat | i < |run| :: !Forgets(Run(a, run[..i]), run[i], key)
  }

  /** The list under `key` counts at least what the run has admitted. */
  ghost predicate Covers(list: seq<int>, times: seq<int>, from: int) {
    forall now: int | from <= now :: |Recent(times, now)| <= |Recent(list, now)|
  }

  lemma CoversMore(list: seq<int>, times: seq<int>, from: int, t: int)
    requires Covers(list, times, from) && from <= t
    ensures Covers(Recent(list, t) + [t], times + [t], t)
  {
    forall now: int | t <= now ensures |Recent(times + [t], now)| <= |Recent(Recent(list, t) + [t], now)| {
      RecentOfMore(times, t, now);
      RecentOfMore(Recent(list, t), t, now);
      RecentOfRecent(list, t, now);
    }
  }

  function Limit(key: string): nat { if key == EVERYONE then MAX_OVERALL else MAX_PER_ADDRESS }

  ghost predicate Bounded(times: seq<int>, limit: nat) { forall end: int :: InWindow(times, end) <= limit }

  lemma BoundedMore(times: seq<int>, t: int, limit: nat)
    requires Bounded(times, limit) && AllBy(times, t) && |Recent(times, t)| < limit
    ensures Bounded(times + [t], limit)
  {
    forall end: int ensures InWindow(times + [t], end) <= limit {
      assert (times + [t])[..|times|] == times;
      assert InWindow(times, end) <= limit;
      if t <= end {
        RecentIsWindow(times, t);
        WindowsFromLast(times, t, end);
      }
    }
  }

  /** The last time the clock was read, or `from`. */
  function LastTake(run: seq<Event>, from: int): int {
    if run == [] then from else if run[|run| - 1].Take? then run[|run| - 1].now else LastTake(run[..|run| - 1], from)
  }

  lemma {:induction false} LastTakeIsLast(run: seq<Event>, from: int, now: int)
    requires Monotone(run) && from <= now && forall e :: e in run && e.Take? ==> from <= e.now <= now
    ensures from <= LastTake(run, from) <= now
  {
    if run != [] {
      assert run[|run| - 1] in run;
      LastTakeIsLast(run[..|run| - 1], from, now);
    }
  }

  /** Whether this event admits someone under `key`. */
  predicate Counts(a: Attempts, e: Event, key: string) {
    e.Take? && Admits(a, e.address, e.now) && (key == EVERYONE || e.address == key)
  }

  lemma ListedAfter(a: Attempts, e: Event, key: string)
    requires !Forgets(a, e, key)
    ensures Counts(a, e, key) ==> Listed(Step(a, e), key) == Recent(Listed(a, key), e.now) + [e.now]
    ensures !Counts(a, e, key) ==> Listed(Step(a, e), key) == Listed(a, key)
  {
  }

  lemma CoversLater(list: seq<int>, times: seq<int>, from: int, now: int)
    requires Covers(list, times, from) && AllBy(times, from) && from <= now
    ensures Covers(list, times, now) && AllBy(times, now)
  {
  }

  lemma StepCovers(a: Attempts, e: Event, key: string, times: seq<int>, from: int, limit: nat)
    requires !Forgets(a, e, key) && Covers(Listed(a, key), times, from) && AllBy(times, from)
    requires Bounded(times, limit) && limit == Limit(key) && (e.Take? ==> from <= e.now)
    ensures var more := if Counts(a, e, key) then [e.now] else [];
            && Covers(Listed(Step(a, e), key), times + more, if e.Take? then e.now else from)
            && Bounded(times + more, limit) && AllBy(times + more, if e.Take? then e.now else from)
  {
    hide Covers, Bounded, Recent, Step, Forgets;
    ListedAfter(a, e, key);
    assert times + [] == times;
    if e.Take? {
      CoversLater(Listed(a, key), times, from, e.now);
      if Counts(a, e, key) {
        CoversMore(Listed(a, key), times, from, e.now);
        BelowLimit(a, e, key, times, from);
        BoundedMore(times, e.now, limit);
      }
    }
  }

  lemma BelowLimit(a: Attempts, e: Event, key: string, times: seq<int>, from: int)
    requires Counts(a, e, key) && Covers(Listed(a, key), times, from) && from <= e.now
    ensures |Recent(times, e.now)| < Limit(key)
  {
  }

  /** Over any run, from any state: what the list under `key` holds covers
      what was admitted, and no window of what was admitted is over the
      limit. */
  lemma {:induction false} RunCovers(a: Attempts, run: seq<Event>, key: string, from: int)
    requires Monotone(run) && NeverForgets(a, run, key) && forall e :: e in run && e.Take? ==> from <= e.now
    ensures Covers(Listed(Run(a, run), key), Times(a, run, key), LastTake(run, from))
    ensures Bounded(Times(a, run, key), Limit(key)) && AllBy(Times(a, run, key), LastTake(run, from))
  {
    hide Step, Recent, InWindow, Admits, Forgets;
    if run == [] {
      NoneRecent();
    } else {
      var before, last := run[..|run| - 1], run[|run| - 1];
      forall i: nat | i < |before| ensures !Forgets(Run(a, before[..i]), before[i], key) {
        assert before[..i] == run[..i] && before[i] == run[i];
      }
      RunCovers(a, before, key, from);
      assert run[..|before|] == before && last in run;
      if last.Take? {
        LastTakeIsLast(before, from, last.now);
      }
      StepCovers(Run(a, before), last, key, Times(a, before, key), LastTake(before, from), Limit(key));
    }
  }

  lemma NoneRecent()
    ensures forall now: int :: Recent([], now) == [] && InWindow([], now) == 0
  {
  }

  /** No minute of any run holds more than thirty admissions, across flushes
      and whatever is cleared: only clearing the shared key itself could lift
      that. */
  lemma NeverMoreThanThirty(a: Attempts, run: seq<Event>, from: int, end: int)
    requires Monotone(run) && (forall e :: e in run && e.Take? ==> from <= e.now) && Clear(EVERYONE) !in run
    ensures InWindow(Times(a, run, EVERYONE), end) <= MAX_OVERALL
  {
    hide InWindow, Times, Admits, Flushes;
    forall i: nat | i < |run| ensures !Forgets(Run(a, run[..i]), run[i], EVERYONE) {
      assert run[i] in run;
    }
    RunCovers(a, run, EVERYONE, from);
  }

  /** And none more than five of one address, as long as the address is not
      cleared and no other address's admission flushes the table. */
  lemma NeverMoreThanFive(a: Attempts, run: seq<Event>, address: string, from: int, end: int)
    requires address != EVERYONE && Monotone(run) && (forall e :: e in run && e.Take? ==> from <= e.now)
    requires NeverForgets(a, run, address)
    ensures InWindow(Times(a, run, address), end) <= MAX_PER_ADDRESS
  {
    hide InWindow, Times;
    RunCovers(a, run, address, from);
  }

  // ── Refusals ──────────────────────────────────────────────────────

  ghost predicate Past(a: Attempts, now: int) { forall key :: key in a ==> AllBy(a[key], now) }

  /** Who is refused waits more than nothing, and a minute at most; and that
      long after, the attempt that was in the way no longer counts. */
  lemma RefusalWaits(a: Attempts, address: string, now: int)
    requires Past(a, now) && !Admits(a, address, now)
    ensures var full := Full(a, address, now);
            var wait := full[0] + WINDOW - now;
            0 < wait <= WINDOW && |Recent(full, now + wait)| < |full|
  {
    var full := Full(a, address, now);
    RecentListed(Listed(a, address), now);
    RecentListed(Listed(a, EVERYONE), now);
    assert full[0] in full;
    FirstExpires(full, full[0] + WINDOW);
  }

  lemma {:induction false} RecentPast(times: seq<int>, t: int, now: int)
    requires AllBy(times, now)
    ensures AllBy(Recent(times, t), now)
  {
    if times != [] {
      RecentPast(times[..|times| - 1], t, now);
    }
  }

  lemma StepPast(a: Attempts, e: Event, now: int)
    requires Past(a, now) && (e.Take? ==> e.now <= now)
    ensures Past(Step(a, e), now)
  {
    hide Recent, Admits;
    if e.Take? {
      RecentPast(Listed(a, e.address), e.now, now);
      RecentPast(Listed(a, EVERYONE), e.now, now);
    }
  }

  /** In every run from an empty table, no attempt on the books is of the
      future. */
  lemma {:induction false} PastKept(run: seq<Event>, now: int)
    requires forall e | e in run && e.Take? :: e.now <= now
    ensures Past(Run(map[], run), now)
  {
    hide Step;
    if run != [] {
      var before, last := run[..|run| - 1], run[|run| - 1];
      assert last in run;
      PastKept(before, now);
      StepPast(Run(map[], before), last, now);
    }
  }

  /** So in every run, whoever is refused at its end is told to wait more than
      nothing and a minute at most. */
  lemma RefusalInRun(run: seq<Event>, address: string, now: int)
    requires Monotone(run + [Take(address, now)]) && !Admits(Run(map[], run), address, now)
    ensures var full := Full(Run(map[], run), address, now);
            var wait := full[0] + WINDOW - now;
            0 < wait <= WINDOW && |Recent(full, now + wait)| < |full|
  {
    hide Full, Recent, Run;
    var all := run + [Take(address, now)];
    forall e | e in run && e.Take? ensures e.now <= now {
      var i: nat :| i < |run| && run[i] == e;
      assert all[i] == e && all[|run|] == Take(address, now);
    }
    PastKept(run, now);
    RefusalWaits(Run(map[], run), address, now);
  }

  lemma {:induction false} FirstExpires(times: seq<int>, now: int)
    requires times != [] && times[0] <= now - WINDOW
    ensures |Recent(times, now)| < |times|
  {
    if |times| > 1 {
      FirstExpires(times[..|times| - 1], now);
    }
  }

  /** A flush does forget: right after one, an address at its limit is let in
      again, while the count over all addresses still stands. */
  lemma FlushForgets(a: Attempts, address: string, other: string, now: int)
    requires Flushes(a) && Admits(a, other, now) && address != other && address != EVERYONE && other != EVERYONE
    ensures Admits(Step(a, Take(other, now)), address, now) <==> |Recent(Listed(a, EVERYONE), now)| + 1 < MAX_OVERALL
  {
    hide Recent;
    RecentOfMore(Recent(Listed(a, EVERYONE), now), now, now);
    RecentOfRecent(Listed(a, EVERYONE), now, now);
    EmptyRecent(now);
  }

  lemma EmptyRecent(now: int)
    ensures Recent([], now) == []
  {
  }

  // ── Exactly who is let in ─────────────────────────────────────────

  /** The list under `key` counts just what the run has admitted. */
  ghost predicate Same(list: seq<int>, times: seq<int>, from: int) {
    forall now: int | from <= now :: Recent(list, now) == Recent(times, now)
  }

  lemma SameMore(list: seq<int>, times: seq<int>, from: int, t: int)
    requires Same(list, times, from) && from <= t
    ensures Same(Recent(list, t) + [t], times + [t], t)
  {
    forall now: int | t <= now ensures Recent(Recent(list, t) + [t], now) == Recent(times + [t], now) {
      RecentOfMore(times, t, now);
      RecentOfMore(Recent(list, t), t, now);
      RecentOfRecent(list, t, now);
    }
  }

  lemma {:induction false} RunSame(run: seq<Event>, key: string, from: int)
    requires Monotone(run) && NeverForgets(map[], run, key) && forall e :: e in run && e.Take? ==> from <= e.now
    ensures Same(Listed(Run(map[], run), key), Times(map[], run, key), LastTake(run, from))
  {
    hide Step, Recent, Admits, Forgets;
    if run != [] {
      var before, last := run[..|run| - 1], run[|run| - 1];
      forall i: nat | i < |before| ensures !Forgets(Run(map[], before[..i]), before[i], key) {
        assert before[..i] == run[..i] && before[i] == run[i];
      }
      RunSame(before, key, from);
      assert run[..|before|] == before && last in run;
      ListedAfter(Run(map[], before), last, key);
      assert Times(map[], before, key) + [] == Times(map[], before, key);
      if last.Take? {
        LastTakeIsLast(before, from, last.now);
        if Counts(Run(map[], before), last, key) {
          SameMore(Listed(Run(map[], before), key), Times(map[], before, key), LastTake(before, from), last.now);
        }
      }
    }
  }

  lemma AdmitsIff(a: Attempts, address: string, now: int)
    ensures Admits(a, address, now) <==> |Recent(Listed(a, address), now)| < 5 && |Recent(Listed(a, EVERYONE), now)| < 30
  {
  }

  /** How many logins under `key` the run let in in the minute before `now`. */
  function LetIn(run: seq<Event>, key: string, now: int): nat { InWindow(Times(map[], run, key), now) }

  lemma CountsWhatWasLetIn(run: seq<Event>, key: string, from: int, now: int)
    requires Monotone(run) && NeverForgets(map[], run, key) && from <= now
    requires forall e :: e in run && e.Take? ==> from <= e.now <= now
    ensures |Recent(Listed(Run(map[], run), key), now)| == LetIn(run, key, now)
  {
    hide Recent, InWindow, Times, Run, Forgets, Bounded, Covers;
    RunSame(run, key, from);
    RunCovers(map[], run, key, from);
    LastTakeIsLast(run, from, now);
    RecentIsWindow(Times(map[], run, key), now);
  }

  /** A login is let in exactly if fewer than five of its address and fewer
      than thirty in all were let in in the last minute, as long as nothing
      took those of its address off the books. */
  lemma LetInIff(run: seq<Event>, address: string, from: int, now: int)
    requires Monotone(run) && Clear(EVERYONE) !in run && NeverForgets(map[], run, address) && from <= now
    requires forall e :: e in run && e.Take? ==> from <= e.now <= now
    ensures Admits(Run(map[], run), address, now) <==> LetIn(run, address, now) < 5 && LetIn(run, EVERYONE, now) < 30
  {
    hide Recent, InWindow, Times, Admits, Flushes, LetIn;
    forall i: nat | i < |run| ensures !Forgets(Run(map[], run[..i]), run[i], EVERYONE) {
      assert run[i] in run;
    }
    AdmitsIff(Run(map[], run), address, now);
    CountsWhatWasLetIn(run, address, from, now);
    CountsWhatWasLetIn(run, EVERYONE, from, now);
  }

  ghost predicate Ascending(times: seq<int>) { forall i: nat, j: nat | i < j < |times| :: times[i] <= times[j] }

  lemma {:induction false} RecentAscends(times: seq<int>, now: int)
    requires Ascending(times)
    ensures Ascending(Recent(times, now))
  {
    if times != [] {
      var front, last := times[..|times| - 1], times[|times| - 1];
      RecentAscends(front, now);
      RecentListed(front, now);
      var before := Recent(front, now);
      forall i: nat | i < |before| ensures before[i] <= last {
        assert before[i] in before;
        var j: nat :| j < |front| && front[j] == before[i];
      }
    }
  }

  /** As long as the first of them counts, so do all. */
  lemma {:induction false} AllRecent(times: seq<int>, now: int)
    requires Ascending(times) && (times != [] ==> times[0] > now - WINDOW)
    ensures Recent(times, now) == times
  {
    if times != [] {
      AllRecent(times[..|times| - 1], now);
    }
  }

  /** The wait is no longer than it must be: sooner, with nobody else let in
      meanwhile, the same address is refused again. */
  lemma WaitIsNeeded(a: Attempts, address: string, now: int, sooner: int)
    requires Ascending(Listed(a, address)) && Ascending(Listed(a, EVERYONE)) && !Admits(a, address, now)
    requires now <= sooner < Full(a, address, now)[0] + WINDOW
    ensures !Admits(a, address, sooner)
  {
    hide Recent;
    RecentAscends(Listed(a, address), now);
    RecentAscends(Listed(a, EVERYONE), now);
    RecentOfRecent(Listed(a, address), now, sooner);
    RecentOfRecent(Listed(a, EVERYONE), now, sooner);
    AllRecent(Full(a, address, now), sooner);
  }

  lemma StepAscends(a: Attempts, e: Event, key: string, from: int)
    requires Ascending(Listed(a, key)) && AllBy(Listed(a, key), from) && (e.Take? ==> from <= e.now)
    ensures Ascending(Listed(Step(a, e), key)) && AllBy(Listed(Step(a, e), key), if e.Take? then e.now else from)
  {
    hide Recent, Full;
    if e.Take? {
      RecentAscends(Listed(a, key), e.now);
      RecentPast(Listed(a, key), e.now, e.now);
    }
  }

  lemma {:induction false} RunAscends(run: seq<Event>, key: string, from: int)
    requires Monotone(run) && forall e :: e in run && e.Take? ==> from <= e.now
    ensures Ascending(Listed(Run(map[], run), key)) && AllBy(Listed(Run(map[], run), key), LastTake(run, from))
  {
    hide Step, Recent, Full;
    if run != [] {
      var before, last := run[..|run| - 1], run[|run| - 1];
      RunAscends(before, key, from);
      assert last in run;
      if last.Take? { LastTakeIsLast(before, from, last.now); }
      StepAscends(Run(map[], before), last, key, LastTake(before, from));
    }
  }

  /** So in every run, who is refused at its end is refused again at every
      moment before the wait is over. */
  lemma RefusedUntil(run: seq<Event>, address: string, from: int, now: int, sooner: int)
    requires Monotone(run) && (forall e :: e in run && e.Take? ==> from <= e.now <= now) && !Admits(Run(map[], run), address, now)
    requires now <= sooner < Full(Run(map[], run), address, now)[0] + WINDOW
    ensures !Admits(Run(map[], run), address, sooner)
  {
    hide Full, Recent, Run;
    RunAscends(run, address, from);
    RunAscends(run, EVERYONE, from);
    WaitIsNeeded(Run(map[], run), address, now, sooner);
  }
}
