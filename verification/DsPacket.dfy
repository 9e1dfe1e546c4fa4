/** The control packet the field sends to a Driver Station: 22 bytes, then
    tags; and what the engine's packets tell a robot. */
module DsPacket {
  import opened Field
  import opened Buffers
  import opened Framer
  import opened UdpStatus
  import E = EngineState
  import EngineSafety

  datatype Order = Order(eStop: bool, enabled: bool, mode: Mode)

  /** A date, as the runtime takes it apart. */
  datatype Moment = Moment(millis: nat, second: nat, minute: nat, hour: nat, day: nat, month: nat, year: int)

  datatype Packet = Packet(sequence: int, order: Order, position: nat, level: nat, matchNumber: int, playNumber: int,
                           time: Moment, remaining: int, gameData: seq<seq<Byte>>, ds2027: bool)

  const MAIN_BYTES: nat := 22
  const DS2027_GAME_DATA_MAX_BYTES: nat := 8

  // ── The bytes ─────────────────────────────────────────────────────

  function ModeNumber(mode: Mode): (n: nat)
    ensures n < 3
  {
    match mode case TeleOpMode => 0 case TestMode => 1 case AutoMode => 2
  }

  function Bits(order: Order): (b: Byte) {
    (if order.eStop then 0x80 else 0) + (if order.enabled then 0x04 else 0) + ModeNumber(order.mode)
  }

  /** A number, and the bytes it is given. */
  datatype Entry = Entry(size: nat, value: int)

  predicate EntryFits(e: Entry) { e.size <= 6 && Fits(e.size, e.value) }

  predicate AllFit(entries: seq<Entry>) { forall i: nat | i < |entries| :: EntryFits(entries[i]) }

  function EntryBytes(e: Entry): (bytes: seq<Byte>)
    requires EntryFits(e)
    ensures |bytes| == e.size
  {
    Bytes(e.size, e.value)
  }

  function Written(entries: seq<Entry>): seq<Byte>
    requires AllFit(entries)
  {
    if entries == [] then [] else Written(entries[..|entries| - 1]) + EntryBytes(entries[|entries| - 1])
  }

  function FrontEntries(p: Packet): seq<Entry> {
    [Entry(2, p.sequence), Entry(1, 0), Entry(1, Bits(p.order)), Entry(1, 0), Entry(1, p.position), Entry(1, p.level),
     Entry(2, p.matchNumber), Entry(1, p.playNumber)]
  }

  function TimeEntries(t: Moment): seq<Entry> {
    [Entry(4, 1000 * t.millis), Entry(1, t.second), Entry(1, t.minute), Entry(1, t.hour), Entry(1, t.day), Entry(1, t.month),
     Entry(1, t.year - 1900)]
  }

  /** Whether every number has room in its field. */
  predicate PacketFits(p: Packet) { AllFit(FrontEntries(p)) && AllFit(TimeEntries(p.time)) && Fits(2, p.remaining) }

  function Main(p: Packet): (bytes: seq<Byte>)
    requires PacketFits(p)
    ensures |bytes| == MAIN_BYTES
  {
    FrontReads(p, Written(FrontEntries(p)));
    TimeReads(p.time, Written(TimeEntries(p.time)));
    Written(FrontEntries(p)) + Written(TimeEntries(p.time)) + Bytes(2, p.remaining)
  }

  /** The 2027 Driver Station is sent eight bytes of game data at most. */
  function TagOf(data: seq<Byte>, ds2027: bool): (tag: seq<Byte>)
    ensures tag != []
  {
    if ds2027 then [0x20] + if |data| > DS2027_GAME_DATA_MAX_BYTES then data[..DS2027_GAME_DATA_MAX_BYTES] else data
    else [0x07] + data
  }

  function TagsOf(gameData: seq<seq<Byte>>, ds2027: bool): (tags: seq<seq<Byte>>) {
    if gameData == [] then []
    else TagsOf(gameData[..|gameData| - 1], ds2027) + [TagOf(gameData[|gameData| - 1], ds2027)]
  }

  /** Each tag after its size. The size is one byte, and a larger one loses
      what is above it. */
  function Laid(tags: seq<seq<Byte>>): seq<Byte> {
    if tags == [] then [] else Laid(tags[..|tags| - 1]) + ([|tags[|tags| - 1]| % 256] + tags[|tags| - 1])
  }

  function PacketBytes(p: Packet): (bytes: seq<Byte>)
    requires PacketFits(p)
    ensures |bytes| >= MAIN_BYTES
  {
    Main(p) + Laid(TagsOf(p.gameData, p.ds2027))
  }

  // ── Read back ─────────────────────────────────────────────────────

  /** What a Driver Station reads: the numbers at their places, and the tags. */
  datatype Received = Received(sequence: int, order: Byte, position: int, level: int, matchNumber: int, playNumber: int,
                               micros: int, second: int, minute: int, hour: int, day: int, month: int, year: int,
                               remaining: int, tags: seq<seq<Byte>>)

  function Receive(s: seq<Byte>): Received
    requires |s| >= MAIN_BYTES
  {
    Received(Number(s[..2]), s[3], s[5], s[6], Number(s[7..9]), s[9],
             Number(s[10..14]), s[14], s[15], s[16], s[17], s[18], s[19], Number(s[20..22]), WholeTags(s[MAIN_BYTES..]))
  }

  function Place(entries: seq<Entry>, k: nat): nat
    requires k <= |entries|
  {
    if k == 0 then 0 else Place(entries, k - 1) + entries[k - 1].size
  }

  lemma {:induction false} WrittenSize(entries: seq<Entry>)
    requires AllFit(entries)
    ensures |Written(entries)| == Place(entries, |entries|)
  {
    if entries != [] {
      var n := |entries| - 1;
      WrittenSize(entries[..n]);
      SamePlace(entries, n, n);
    }
  }

  lemma {:induction false} SamePlace(entries: seq<Entry>, n: nat, k: nat)
    requires k <= n <= |entries|
    ensures Place(entries[..n], k) == Place(entries, k)
  {
    if k > 0 { SamePlace(entries, n, k - 1); }
  }

  /** Every entry reads back from its place. */
  lemma {:induction false} EntryReads(entries: seq<Entry>, k: nat)
    requires AllFit(entries) && k < |entries|
    ensures Place(entries, k) + entries[k].size <= |Written(entries)|
    ensures Number(Written(entries)[Place(entries, k)..Place(entries, k) + entries[k].size]) == entries[k].value
  {
    hide Number, EntryFits, EntryBytes;
    var n := |entries| - 1;
    var front := entries[..n];
    SamePlace(entries, n, k);
    WrittenSize(front);
    if k < n {
      EntryReads(front, k);
      InFront(Written(front), EntryBytes(entries[n]), Place(entries, k), Place(entries, k) + entries[k].size);
    } else {
      assert n == k;
      SamePlace(entries, n, n);
      LastReads(Written(front), entries[n]);
    }
  }

  lemma LastReads(before: seq<Byte>, e: Entry)
    requires EntryFits(e)
    ensures Number((before + EntryBytes(e))[|before|..|before| + e.size]) == e.value
  {
    NumberOfBytes(e.size, e.value);
    assert (before + EntryBytes(e))[|before|..|before| + e.size] == EntryBytes(e);
  }

  lemma InFront(a: seq<Byte>, b: seq<Byte>, from: nat, to: nat)
    requires from <= to <= |a|
    ensures (a + b)[from..to] == a[from..to]
  {
  }

  lemma Single(b: Byte)
    ensures Number([b]) == b
  {
  }

  lemma FrontReads(p: Packet, s: seq<Byte>)
    requires AllFit(FrontEntries(p)) && Written(FrontEntries(p)) <= s
    ensures |Written(FrontEntries(p))| == 10
    ensures Number(s[..2]) == p.sequence && s[3] == Bits(p.order) && s[5] == p.position && s[6] == p.level
    ensures Number(s[7..9]) == p.matchNumber && s[9] == p.playNumber
  {
    hide Written, Bits, EntryFits, AllFit, Number;
    var f := FrontEntries(p);
    var w := Written(f);
    WrittenSize(f);
    assert Place(f, 1) == 2 && Place(f, 2) == 3 && Place(f, 3) == 4 && Place(f, 4) == 5;
    assert Place(f, 5) == 6 && Place(f, 6) == 7 && Place(f, 7) == 9 && Place(f, 8) == 10;
    EntryReads(f, 0); EntryReads(f, 2); EntryReads(f, 4); EntryReads(f, 5); EntryReads(f, 6); EntryReads(f, 7);
    assert w[0..2] == s[..2] && w[7..9] == s[7..9];
    assert w[3..4] == [s[3]] && w[5..6] == [s[5]] && w[6..7] == [s[6]] && w[9..10] == [s[9]];
    Single(s[3]); Single(s[5]); Single(s[6]); Single(s[9]);
  }

  lemma TimeReads(t: Moment, s: seq<Byte>)
    requires AllFit(TimeEntries(t)) && Written(TimeEntries(t)) <= s
    ensures |Written(TimeEntries(t))| == 10
    ensures Number(s[..4]) == 1000 * t.millis && s[4] == t.second && s[5] == t.minute && s[6] == t.hour
    ensures s[7] == t.day && s[8] == t.month && s[9] == t.year - 1900
  {
    hide Written, EntryFits, AllFit, Number;
    var f := TimeEntries(t);
    var w := Written(f);
    WrittenSize(f);
    assert Place(f, 1) == 4 && Place(f, 2) == 5 && Place(f, 3) == 6 && Place(f, 4) == 7;
    assert Place(f, 5) == 8 && Place(f, 6) == 9 && Place(f, 7) == 10;
    EntryReads(f, 0); EntryReads(f, 1); EntryReads(f, 2); EntryReads(f, 3); EntryReads(f, 4); EntryReads(f, 5); EntryReads(f, 6);
    assert w[0..4] == s[..4];
    assert w[4..5] == [s[4]] && w[5..6] == [s[5]] && w[6..7] == [s[6]] && w[7..8] == [s[7]] && w[8..9] == [s[8]] && w[9..10] == [s[9]];
    Single(s[4]); Single(s[5]); Single(s[6]); Single(s[7]); Single(s[8]); Single(s[9]);
  }

  lemma {:induction false} PackedLast(tags: seq<seq<Byte>>, last: seq<Byte>)
    requires TagSizes(tags) && 0 < |last| <= 255
    ensures TagSizes(tags + [last]) && Packed(tags + [last]) == Packed(tags) + ([|last|] + last)
  {
    var all := tags + [last];
    if tags == [] {
      assert all[1..] == [];
      assert Packed(all) == [|last|] + last + Packed([]);
    } else {
      PackedLast(tags[1..], last);
      assert all[1..] == tags[1..] + [last];
      Assoc([|tags[0]|] + tags[0], Packed(tags[1..]), [|last|] + last);
    }
  }

  lemma {:induction false} LaidIs(tags: seq<seq<Byte>>)
    requires TagSizes(tags)
    ensures Laid(tags) == Packed(tags)
  {
    hide Packed;
    if tags == [] {
      NothingPacked();
    } else {
      var front, last := tags[..|tags| - 1], tags[|tags| - 1];
      assert tags == front + [last];
      LaidIs(front);
      PackedLast(front, last);
    }
  }

  lemma NothingPacked()
    ensures Packed([]) == []
  {
  }

  /** Tags come through exactly if each fits the one byte of its size. */
  lemma TagsComeThroughIff(tags: seq<seq<Byte>>)
    ensures WholeTags(Laid(tags)) == tags <==> TagSizes(tags)
  {
    hide Packed, Laid;
    if TagSizes(tags) {
      LaidIs(tags);
      OneWay(tags, []);
      assert Packed(tags) + [] == Packed(tags);
    }
  }

  /** The byte that orders the robot about says what it was told to say, where
      the Driver Station's own status says the same. */
  lemma OrderReads(order: Order)
    ensures DsStatusOf(Bits(order)) == DsStatus(order.eStop, false, false, false, false, order.enabled, Some(order.mode))
  {
  }

  /** A packet reads back: every number, the time it was made, and its tags if
      they fit. */
  lemma PacketReads(p: Packet)
    requires PacketFits(p)
    ensures var r := Receive(PacketBytes(p));
      && r == Received(p.sequence, Bits(p.order), p.position, p.level, p.matchNumber, p.playNumber,
                       1000 * p.time.millis, p.time.second, p.time.minute, p.time.hour, p.time.day, p.time.month, p.time.year - 1900,
                       p.remaining, r.tags)
      && (r.tags == TagsOf(p.gameData, p.ds2027) <==> TagSizes(TagsOf(p.gameData, p.ds2027)))
  {
    hide Written, AllFit, Number, Bits, WholeTags, Laid, TagsOf, TagSizes, Bytes;
    var front, time, rest, tags := Written(FrontEntries(p)), Written(TimeEntries(p.time)), Bytes(2, p.remaining), Laid(TagsOf(p.gameData, p.ds2027));
    var s := PacketBytes(p);
    TagsComeThroughIff(TagsOf(p.gameData, p.ds2027));
    NumberOfBytes(2, p.remaining);
    FrontReads(p, front);
    TimeReads(p.time, time);
    Four(front, time, rest, tags);
    FrontReads(p, s);
    TimeReads(p.time, s[10..]);
    assert s[10..][..4] == s[10..14];
  }

  lemma Four(front: seq<Byte>, time: seq<Byte>, rest: seq<Byte>, tags: seq<Byte>)
    requires |front| == 10 && |time| == 10 && |rest| == 2
    ensures var s := front + time + rest + tags;
      front <= s && time <= s[10..] && s[20..22] == rest && s[22..] == tags
  {
  }

  // ── Written into a buffer ─────────────────────────────────────────

  lemma WrittenNext(done: seq<Entry>, e: Entry)
    requires AllFit(done) && EntryFits(e)
    ensures AllFit(done + [e]) && Written(done + [e]) == Written(done) + Bytes(e.size, e.value)
  {
  }

  lemma NothingWritten()
    ensures Written([]) == []
  {
  }

  method Put(w: BufferWriter, ghost done: seq<Entry>, size: nat, value: int) returns (ok: bool)
    requires w.Valid() && AllFit(done) && w.Trimmed() == Written(done)
    requires 1 <= size <= 6 && w.offset + size <= w.buffer.Length
    modifies w`offset, w.buffer
    ensures w.Valid() && (ok <==> EntryFits(Entry(size, value)))
    ensures ok ==> AllFit(done + [Entry(size, value)]) && w.Trimmed() == Written(done + [Entry(size, value)]) && w.offset == old(w.offset) + size
  {
    hide Written, AllFit, Bytes, Span;
    var r := w.WriteNumber(size, value);
    ok := r.Ok?;
    if ok {
      WrittenNext(done, Entry(size, value));
    }
  }

  method DateToBuffer(t: Moment) returns (r: Option<seq<Byte>>)
    ensures r.Some? <==> AllFit(TimeEntries(t))
    ensures r.Some? ==> r.value == Written(TimeEntries(t))
  {
    hide Written, EntryFits;
    var f := TimeEntries(t);
    var buffer := new Byte[10](i => 0);
    var w := new BufferWriter(buffer);
    NothingWritten();
    assert [] + [f[0]] == f[..1];
    var ok := Put(w, [], 4, 1000 * t.millis);
    if !ok { assert !EntryFits(f[0]); return None; }
    ok := Put(w, f[..1], 1, t.second);
    if !ok { assert !EntryFits(f[1]); return None; }
    assert f[..1] + [f[1]] == f[..2];
    ok := Put(w, f[..2], 1, t.minute);
    if !ok { assert !EntryFits(f[2]); return None; }
    assert f[..2] + [f[2]] == f[..3];
    ok := Put(w, f[..3], 1, t.hour);
    if !ok { assert !EntryFits(f[3]); return None; }
    assert f[..3] + [f[3]] == f[..4];
    ok := Put(w, f[..4], 1, t.day);
    if !ok { assert !EntryFits(f[4]); return None; }
    assert f[..4] + [f[4]] == f[..5];
    ok := Put(w, f[..5], 1, t.month);
    if !ok { assert !EntryFits(f[5]); return None; }
    assert f[..5] + [f[5]] == f[..6];
    ok := Put(w, f[..6], 1, t.year - 1900);
    if !ok { assert !EntryFits(f[6]); return None; }
    assert f[..6] + [f[6]] == f;
    assert buffer[..] == w.Trimmed();
    return Some(buffer[..]);
  }

  method MakeTagsBuffers(gameData: seq<seq<Byte>>, ds2027: bool) returns (bytes: seq<Byte>)
    ensures bytes == Laid(TagsOf(gameData, ds2027))
  {
    bytes := [];
    for i := 0 to |gameData|
      invariant bytes == Laid(TagsOf(gameData[..i], ds2027))
    {
      var data := gameData[i];
      if ds2027 && |data| > DS2027_GAME_DATA_MAX_BYTES {
        data := data[..DS2027_GAME_DATA_MAX_BYTES];
      }
      var header: seq<Byte> := [(|data| + 1) % 256, if ds2027 then 0x20 else 0x07];
      ghost var tags, tag := TagsOf(gameData[..i], ds2027), TagOf(gameData[i], ds2027);
      assert gameData[..i + 1][..i] == gameData[..i];
      assert (tags + [tag])[..|tags|] == tags;
      assert header + data == [|tag| % 256] + tag;
      bytes := bytes + (header + data);
    }
    assert gameData[..|gameData|] == gameData;
  }

  /** Writes the numbers in order, and refuses a packet with one that has no
      room. */
  method MakeDsPacket(p: Packet) returns (r: Option<seq<Byte>>)
    ensures r.Some? <==> PacketFits(p)
    ensures r.Some? ==> r.value == PacketBytes(p)
  {
    hide Written, EntryFits, Bits, Laid, TagsOf, TimeEntries;
    var f := FrontEntries(p);
    var buffer := new Byte[MAIN_BYTES](i => 0);
    var main := new BufferWriter(buffer);
    var ok := WriteFront(main, p);
    if !ok { return None; }
    FrontReads(p, Written(f));
    var time := DateToBuffer(p.time);
    if time.None? { return None; }
    TimeReads(p.time, time.value);
    var stored := main.WriteBuffer(time.value);
    var last := main.WriteNumber(2, p.remaining);
    if last.Err? { return None; }
    assert buffer[..] == main.Trimmed();
    var tags := MakeTagsBuffers(p.gameData, p.ds2027);
    return Some(buffer[..] + tags);
  }

  lemma ByteFits(value: Byte)
    ensures EntryFits(Entry(1, value))
  {
  }

  method WriteFront(main: BufferWriter, p: Packet) returns (ok: bool)
    requires main.Valid() && main.offset == 0 && main.buffer.Length == MAIN_BYTES
    modifies main`offset, main.buffer
    ensures main.Valid() && (ok <==> AllFit(FrontEntries(p)))
    ensures ok ==> main.Trimmed() == Written(FrontEntries(p))
  {
    hide Written, EntryFits, Bits, Bytes, Span, Number, Place;
    var f := FrontEntries(p);
    NothingWritten();
    assert [] + [f[0]] == f[..1];
    ByteFits(0);
    ByteFits(Bits(p.order));
    ok := Put(main, [], 2, p.sequence);
    if !ok { assert !EntryFits(f[0]); return; }
    ok := Put(main, f[..1], 1, 0);
    assert f[..1] + [f[1]] == f[..2];
    ok := Put(main, f[..2], 1, Bits(p.order));
    assert f[..2] + [f[2]] == f[..3];
    ok := Put(main, f[..3], 1, 0);
    assert f[..3] + [f[3]] == f[..4];
    ok := Put(main, f[..4], 1, p.position);
    if !ok { assert !EntryFits(f[4]); return; }
    assert f[..4] + [f[4]] == f[..5];
    ok := Put(main, f[..5], 1, p.level);
    if !ok { assert !EntryFits(f[5]); return; }
    assert f[..5] + [f[5]] == f[..6];
    ok := Put(main, f[..6], 2, p.matchNumber);
    if !ok { assert !EntryFits(f[6]); return; }
    assert f[..6] + [f[6]] == f[..7];
    ok := Put(main, f[..7], 1, p.playNumber);
    if !ok { assert !EntryFits(f[7]); return; }
    assert f[..7] + [f[7]] == f;
  }

  // ── What the engine sends ─────────────────────────────────────────

  function Rounded(seconds: real): int { (seconds + 0.5).Floor }

  /** In the phases after the autonomous one, and before the match is over, the
      Driver Stations are told whose goal is inactive first. */
  predicate TellsWinner(phase: E.Phase) { phase.AutoPause? || phase.Teleop? || phase.Endgame? }

  /** The packet for one station. Stops are never sent as such: the robot is
      disabled, and held down by the engine. */
  function MatchPacket(e: E.Engine, s: Station, sequence: nat, position: nat, matchNumber: int, time: Moment, ds2027: bool): Packet {
    var c := e.st[s];
    Packet(sequence % 0x1_0000,
           Order(false, c.enabled && !E.EStopped(e, s) && !c.aStop, if c.mode.AutoMode? then AutoMode else TeleOpMode),
           position, 1, matchNumber, 1, time, if Rounded(e.clock.remaining) < 0 then 0 else Rounded(e.clock.remaining),
           if e.winner.Some? && TellsWinner(e.phase) then [[if e.winner.value.Red? then 0x52 else 0x42]] else [],
           ds2027)
  }

  /** What station `s`'s Driver Station reads of a packet made in state `e`. */
  ghost predicate Says(r: Received, e: E.Engine, s: Station, ds2027: bool) {
    && DsStatusOf(r.order) == DsStatus(false, false, false, false, false, e.st[s].enabled,
                                       Some(if e.st[s].mode.AutoMode? then AutoMode else TeleOpMode))
    && r.tags == (if e.winner.Some? && TellsWinner(e.phase)
                  then [[if ds2027 then 0x20 else 0x07, if e.winner.value.Red? then 0x52 else 0x42]] else [])
  }

  lemma PacketSays(e: E.Engine, s: Station, sequence: nat, position: nat, matchNumber: int, time: Moment, ds2027: bool)
    requires EngineSafety.Safe(e) && PacketFits(MatchPacket(e, s, sequence, position, matchNumber, time, ds2027))
    ensures Says(Receive(PacketBytes(MatchPacket(e, s, sequence, position, matchNumber, time, ds2027))), e, s, ds2027)
  {
    hide Receive, PacketBytes, PacketFits, DsStatusOf, EngineSafety.Safe, E.EStopped, TagsOf, Bits;
    var p := MatchPacket(e, s, sequence, position, matchNumber, time, ds2027);
    PacketReads(p);
    OrderReads(p.order);
    EnabledOnWire(e, s);
    WinnerTag(p);
  }

  /** In every run, whatever packet a robot's Driver Station reads says Enabled
      exactly if the robot is enabled, and then the robot may run, and in the
      mode of the phase; none ever says e-stop; and the winner's letter is there
      exactly when it is due. */
  lemma OnTheWire(e: E.Engine, steps: seq<E.Step>, s: Station, sequence: nat, position: nat, matchNumber: int, time: Moment, ds2027: bool)
    requires EngineSafety.Safe(e) && E.Runs(e, steps)
    requires PacketFits(MatchPacket(E.Run(e, steps), s, sequence, position, matchNumber, time, ds2027))
    ensures var now := E.Run(e, steps);
      var r := Receive(PacketBytes(MatchPacket(now, s, sequence, position, matchNumber, time, ds2027)));
      && Says(r, now, s, ds2027)
      && (DsStatusOf(r.order).enabled ==> EngineSafety.MayRun(now, s)
                                          && DsStatusOf(r.order).mode == Some(if now.phase.Auto? then AutoMode else TeleOpMode))
  {
    hide MatchPacket, Receive, PacketBytes, PacketFits, E.Run, E.Runs, EngineSafety.MayRunBut;
    EngineSafety.RunSafe(e, steps);
    PacketSays(E.Run(e, steps), s, sequence, position, matchNumber, time, ds2027);
  }

  lemma EnabledOnWire(e: E.Engine, s: Station)
    requires EngineSafety.Safe(e)
    ensures e.st[s].enabled ==> EngineSafety.MayRun(e, s) && !E.EStopped(e, s) && !e.st[s].aStop
  {
  }

  lemma WinnerTag(p: Packet)
    requires |p.gameData| <= 1 && forall data | data in p.gameData :: |data| == 1
    ensures var tags := TagsOf(p.gameData, p.ds2027);
      && TagSizes(tags)
      && tags == if p.gameData == [] then [] else [[if p.ds2027 then 0x20 else 0x07, p.gameData[0][0]]]
  {
    if p.gameData != [] {
      var data := p.gameData[0];
      assert p.gameData[..0] == [];
      assert data in p.gameData && data == [data[0]];
      assert TagOf(data, p.ds2027) == [if p.ds2027 then 0x20 else 0x07, data[0]];
    }
  }

  /** The numbers that go with it: which packet, for which match and position,
      and the seconds left, to the nearest, and none below zero. */
  lemma NumbersOnTheWire(e: E.Engine, s: Station, sequence: nat, position: nat, matchNumber: int, time: Moment, ds2027: bool)
    requires PacketFits(MatchPacket(e, s, sequence, position, matchNumber, time, ds2027))
    ensures var r := Receive(PacketBytes(MatchPacket(e, s, sequence, position, matchNumber, time, ds2027)));
      && 0 <= r.sequence < 0x1_0000 && (sequence - r.sequence) % 0x1_0000 == 0
      && r.position == position && r.level == 1 && r.matchNumber == matchNumber && r.playNumber == 1
      && r.micros == 1000 * time.millis && r.second == time.second && r.minute == time.minute && r.hour == time.hour
      && r.day == time.day && r.month == time.month && r.year == time.year - 1900
      && (e.clock.remaining >= 0.0 ==> -0.5 < r.remaining as real - e.clock.remaining <= 0.5)
      && (e.clock.remaining < 0.0 ==> r.remaining == 0)
  {
    hide Receive, PacketBytes, PacketFits, E.EStopped, TagsOf, Bits;
    PacketReads(MatchPacket(e, s, sequence, position, matchNumber, time, ds2027));
  }

  /** Each tag is the number of its kind and then its data, in their order; the
      2027 station gets the first eight bytes of longer data. */
  lemma {:induction false} TagsAre(gameData: seq<seq<Byte>>, ds2027: bool)
    ensures var tags := TagsOf(gameData, ds2027);
      && |tags| == |gameData|
      && forall i: nat | i < |tags| :: tags[i] != [] && tags[i][0] == (if ds2027 then 0x20 else 0x07)
           && (if ds2027 && |gameData[i]| > 8 then tags[i][1..] == gameData[i][..8] else tags[i][1..] == gameData[i])
  {
    if gameData != [] {
      TagsAre(gameData[..|gameData| - 1], ds2027);
    }
  }
}
