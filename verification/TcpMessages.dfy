/** What a Driver Station puts on the wire for each message it can say, and
    that the field reads back that message, alone and in any stream. */
module TcpMessages {
  import opened Buffers
  import opened Field
  import opened Framer

  // ── The wire ──────────────────────────────────────────────────────

  function Set(on: bool, mask: Byte): Byte { if on then mask else 0 }

  /** The bits of a status byte, highest first. */
  function StatusByte(s: Status): Byte {
    Set(s.brownout, 0x80) + Set(s.watchdog, 0x40) + Set(s.ds.teleOp, 0x20) + Set(s.ds.auto, 0x10) + Set(s.ds.disable, 0x08)
    + Set(s.robot.teleOp, 0x04) + Set(s.robot.auto, 0x02) + Set(s.robot.disable, 0x01)
  }

  /** A reading in 256ths, whole: none is sent as 0xFFFF. */
  function VoltageBytes(voltage: Option<real>): (bytes: seq<Byte>)
    requires VoltageFits(voltage)
    ensures |bytes| == 2
  {
    if voltage.None? then [0xFF, 0xFF] else Bytes(2, (voltage.value * 256.0).Floor)
  }

  predicate Whole256(x: real, most: int) { 0.0 <= x * 256.0 <= most as real && (x * 256.0).Floor as real == x * 256.0 }

  predicate VoltageFits(voltage: Option<real>) {
    voltage.Some? ==> Whole256(voltage.value, 0xFFFE) && voltage.value > 0.0
  }

  /** The digits of a number. */
  function Decimal(n: nat): seq<Byte> {
    if n < 10 then [0x30 + n] else Decimal(n / 10) + [0x30 + n % 10]
  }

  lemma DecimalShort(n: nat)
    requires n <= 0xFFFF
    ensures |Decimal(n)| <= 5
  {
    assert |Decimal(n / 10_000)| == 1;
    assert |Decimal(n / 1_000)| <= 2 by { assert n / 1_000 / 10 == n / 10_000; }
    assert |Decimal(n / 100)| <= 3 by { assert n / 100 / 10 == n / 1_000; }
    assert |Decimal(n / 10)| <= 4 by { assert n / 10 / 10 == n / 100; }
  }

  /** A message that fits on the wire. */
  predicate Sendable(m: Message) {
    match m
    case Version(kind, _) => kind <= 0x07
    case UsageReport(team, unknown, _) => team <= 0xFFFF && unknown <= 0xFF
    case LogData(trip, lost, voltage, _, can, signal, bandwidth) =>
      && trip <= 0xFF && lost <= 0xFF && VoltageFits(voltage) && can <= 0x1FE && can % 2 == 0 && signal <= 0x1FE && signal % 2 == 0
      && Whole256(bandwidth, 0xFFFF)
    case ErrorAndEvent(count, timestamp, unknown, _) => count <= 0xFFFF_FFFF && Fits(8, timestamp) && |unknown| == 8
    case TeamNumber(team) => team <= 0xFFFF
    case Handshake(team, port, flags) => team <= 0xFFFF && 1 <= port <= 0xFFFF && flags <= 0xFF
    case ChallengeResponse(_) => true
    case Ping => true
    case KeepAlive => true
  }

  function Encoded(m: Message): (data: seq<Byte>)
    requires Sendable(m)
  {
    match m
    case Version(kind, version) => [kind] + version
    case UsageReport(team, unknown, entries) => [0x15] + Bytes(2, team) + [unknown] + entries
    case LogData(trip, lost, voltage, status, can, signal, bandwidth) =>
      [0x16, trip, lost] + VoltageBytes(voltage) + [StatusByte(status), can / 2, signal / 2] + Bytes(2, (bandwidth * 256.0).Floor)
    case ErrorAndEvent(count, timestamp, unknown, text) => [0x17] + Bytes(4, count) + Bytes(8, timestamp) + unknown + text
    case TeamNumber(team) => [0x18] + Bytes(2, team)
    case Handshake(team, port, flags) => DecimalShort(team); [0x1E] + Bytes(2, port) + [flags, |Decimal(team)|] + Decimal(team)
    case ChallengeResponse(response) => [0x1B] + response
    case Ping => [0x1C]
    case KeepAlive => [0x1D]
  }

  // ── Reading it back ───────────────────────────────────────────────

  lemma QuotientIs(n: nat, d: nat, q: nat, r: nat)
    requires r < d && n == q * d + r
    ensures n / d == q
  {
    var k := n / d;
    assert n == k * d + n % d;
    assert k < q ==> (k + 1) * d <= q * d;
    assert k > q ==> (q + 1) * d <= k * d;
  }

  /** One bit out of a byte: `high` is what stands above it, `low` below. */
  lemma BitIs(n: Byte, mask: nat, high: nat, on: bool, low: nat)
    requires low < mask && n == (2 * high + if on then 1 else 0) * mask + low
    ensures Bit(n, mask) == on
  {
    QuotientIs(n, mask, 2 * high + if on then 1 else 0, low);
  }

  lemma BitsOf(s: Status)
    ensures StatusOf(StatusByte(s)) == s
  {
    hide Bit;
    var n := StatusByte(s);
    var a, b, c, d := if s.brownout then 1 else 0, if s.watchdog then 1 else 0, if s.ds.teleOp then 1 else 0, if s.ds.auto then 1 else 0;
    var e, f, g, h := if s.ds.disable then 1 else 0, if s.robot.teleOp then 1 else 0, if s.robot.auto then 1 else 0, if s.robot.disable then 1 else 0;
    BitIs(n, 0x80, 0, s.brownout, 64 * b + 32 * c + 16 * d + 8 * e + 4 * f + 2 * g + h);
    BitIs(n, 0x40, a, s.watchdog, 32 * c + 16 * d + 8 * e + 4 * f + 2 * g + h);
    BitIs(n, 0x20, 2 * a + b, s.ds.teleOp, 16 * d + 8 * e + 4 * f + 2 * g + h);
    BitIs(n, 0x10, 4 * a + 2 * b + c, s.ds.auto, 8 * e + 4 * f + 2 * g + h);
    BitIs(n, 0x08, 8 * a + 4 * b + 2 * c + d, s.ds.disable, 4 * f + 2 * g + h);
    BitIs(n, 0x04, 16 * a + 8 * b + 4 * c + 2 * d + e, s.robot.teleOp, 2 * g + h);
    BitIs(n, 0x02, 32 * a + 16 * b + 8 * c + 4 * d + 2 * e + f, s.robot.auto, h);
    BitIs(n, 0x01, 64 * a + 32 * b + 16 * c + 8 * d + 4 * e + 2 * f + g, s.robot.disable, 0);
  }

  lemma Span2()
    ensures Span(1) == 0x100 && Span(2) == 0x1_0000 && Span(4) == 0x1_0000_0000
  {
    assert Span(3) == 0x100_0000;
  }

  lemma TwoBytes(value: nat)
    requires value <= 0xFFFF
    ensures Number(Bytes(2, value)) == value
  {
    Span2();
    NumberOfBytes(2, value);
  }

  predicate AllDigits(text: seq<Byte>) { forall i: nat | i < |text| :: Digit(text[i]) }

  lemma {:induction false} DigitsMore(text: seq<Byte>, d: Byte, seen: nat)
    requires AllDigits(text) && Digit(d)
    ensures DigitBytes(text + [d], seen) == 10 * DigitBytes(text, seen) + (d - 0x30)
  {
    if text == [] {
      assert ([] + [d])[1..] == [];
    } else {
      assert (text + [d])[1..] == text[1..] + [d];
      DigitsMore(text[1..], d, 10 * seen + (text[0] - 0x30));
    }
  }

  /** The number spelled by its digits is the number. */
  lemma {:induction false} DecimalReads(n: nat)
    ensures Decimal(n) != [] && AllDigits(Decimal(n)) && DigitBytes(Decimal(n), 0) == n
  {
    if n < 10 {
      assert Decimal(n)[1..] == [];
    } else {
      DecimalReads(n / 10);
      DigitsMore(Decimal(n / 10), 0x30 + n % 10, 0);
    }
  }

  lemma VersionReads(kind: Byte, version: seq<Byte>)
    requires kind <= 0x07
    ensures ParseTcp([kind] + version) == Emits(Version(kind, version))
  {
    assert ([kind] + version)[1..] == version;
  }

  lemma UsageReads(team: nat, unknown: nat, entries: seq<Byte>)
    requires team <= 0xFFFF && unknown <= 0xFF
    ensures ParseTcp([0x15] + Bytes(2, team) + [unknown] + entries) == Emits(UsageReport(team, unknown, entries))
  {
    hide Number, Bytes;
    var data := [0x15] + Bytes(2, team) + [unknown] + entries;
    TwoBytes(team);
    assert data[1..3] == Bytes(2, team) && data[4..] == entries;
  }

  lemma VoltageReads(voltage: Option<real>)
    requires VoltageFits(voltage)
    ensures Voltage(Number(VoltageBytes(voltage))) == voltage
  {
    if voltage.Some? {
      TwoBytes((voltage.value * 256.0).Floor);
    } else {
      assert Number([0xFF]) == 0xFF && [0xFF, 0xFF][..1] == [0xFF];
    }
  }

  lemma LogBytes(head: seq<Byte>, volts: seq<Byte>, mid: seq<Byte>, bandwidth: seq<Byte>)
    requires |head| == 3 && |volts| == 2 && |mid| == 3 && |bandwidth| == 2
    ensures var data := head + volts + mid + bandwidth;
      && |data| == 10 && data[0] == head[0] && data[1] == head[1] && data[2] == head[2] && data[3..5] == volts
      && data[5] == mid[0] && data[6] == mid[1] && data[7] == mid[2] && data[8..10] == bandwidth
  {
  }

  lemma LogReads(data: seq<Byte>)
    requires |data| == 10 && data[0] == 0x16
    ensures ParseTcp(data)
            == Emits(LogData(data[1], data[2], Voltage(Number(data[3..5])), StatusOf(data[5]), 2 * data[6] as int, 2 * data[7] as int,
                             Number(data[8..10]) as real / 256.0))
  {
    hide Number, StatusOf, Voltage;
  }

  lemma LogDataReads(m: Message)
    requires m.LogData? && Sendable(m)
    ensures ParseTcp(Encoded(m)) == Emits(m)
  {
    hide ParseTcp, Number, Bytes, StatusOf, StatusByte, Voltage, VoltageBytes;
    var raw := (m.bandwidth * 256.0).Floor;
    LogBytes([0x16, m.roundTripTime, m.lostPackets], VoltageBytes(m.voltage), [StatusByte(m.status), m.can / 2, m.signalDb / 2], Bytes(2, raw));
    LogReads(Encoded(m));
    VoltageReads(m.voltage);
    BitsOf(m.status);
    TwoBytes(raw);
    assert raw as real / 256.0 == m.bandwidth;
  }

  lemma ErrorReads(m: Message)
    requires m.ErrorAndEvent? && Sendable(m)
    ensures ParseTcp(Encoded(m)) == Emits(m)
  {
    hide Number, Bytes, Span;
    var data := Encoded(m);
    Span2();
    NumberOfBytes(4, m.messageCount);
    LeadingZeros(2, 6, m.timestamp);
    ZeroBytes(2);
    NumberOfBytes(6, m.timestamp);
    assert data[1..5] == Bytes(4, m.messageCount);
    assert data[5..13] == Bytes(2, 0) + Bytes(6, m.timestamp);
    assert data[5..7] == data[5..13][..2] == Bytes(2, 0);
    assert data[7..13] == data[5..13][2..] == Bytes(6, m.timestamp);
    assert data[13..21] == m.unknownBytes && data[21..] == m.text;
  }

  lemma TeamReads(team: nat)
    requires team <= 0xFFFF
    ensures ParseTcp([0x18] + Bytes(2, team)) == Emits(TeamNumber(team))
  {
    hide Number, Bytes;
    TwoBytes(team);
    assert ([0x18] + Bytes(2, team))[1..3] == Bytes(2, team);
  }

  lemma HandshakeReads(team: nat, port: nat, flags: nat)
    requires Sendable(Handshake(team, port, flags))
    ensures ParseTcp(Encoded(Handshake(team, port, flags))) == Emits(Handshake(team, port, flags))
  {
    hide Number, Bytes, Decimal, DigitBytes;
    var data, text := Encoded(Handshake(team, port, flags)), Decimal(team);
    TwoBytes(port);
    DecimalReads(team);
    DecimalShort(team);
    assert data[1..3] == Bytes(2, port) && data[5..5 + |text|] == text;
    assert Digit(text[0]);
    assert Integer(text) == Some(team);
  }

  /** Whatever a Driver Station says, the field reads: the message, field by
      field, that the bytes were made of. */
  lemma TcpRoundTrip(m: Message)
    requires Sendable(m)
    ensures ParseTcp(Encoded(m)) == Emits(m)
  {
    hide ParseTcp;
    match m
    case Version(kind, version) => VersionReads(kind, version);
    case UsageReport(team, unknown, entries) => UsageReads(team, unknown, entries);
    case LogData(_, _, _, _, _, _, _) => LogDataReads(m);
    case ErrorAndEvent(_, _, _, _) => ErrorReads(m);
    case TeamNumber(team) => TeamReads(team);
    case Handshake(team, port, flags) => HandshakeReads(team, port, flags);
    case ChallengeResponse(response) => ResponseReads(response);
    case Ping => BareReads();
    case KeepAlive => BareReads();
  }

  lemma ResponseReads(response: seq<Byte>)
    ensures ParseTcp([0x1B] + response) == Emits(ChallengeResponse(response))
  {
    assert ([0x1B] + response)[1..] == response;
  }

  lemma BareReads()
    ensures ParseTcp([0x1C]) == Emits(Ping) && ParseTcp([0x1D]) == Emits(KeepAlive)
  {
  }

  // ── What says nothing, and what does not parse ────────────────────

  /** What the digits of a text say, each ten times the next. */
  function ValueOf(digits: seq<Byte>): nat
    requires AllDigits(digits)
  {
    if digits == [] then 0 else 10 * ValueOf(digits[..|digits| - 1]) + (digits[|digits| - 1] - 0x30)
  }

  /** The text is blanks, a sign if `sign` is one, digits that spell `value`,
      and then anything but a digit. */
  ghost predicate SpelledAt(text: seq<Byte>, blanks: nat, sign: nat, end: nat, value: nat) {
    && blanks + sign < end <= |text| && sign <= 1
    && (forall i: nat | i < blanks :: Blank(text[i]))
    && (sign == 1 ==> text[blanks] == 0x2B || text[blanks] == 0x2D)
    && AllDigits(text[blanks + sign..end]) && (end < |text| ==> !Digit(text[end]))
    && value == ValueOf(text[blanks + sign..end])
  }

  /** The text starts with the integer `value`. */
  ghost predicate Spells(text: seq<Byte>, value: int) {
    exists blanks: nat, sign: nat, end: nat, n: nat :: SpelledAt(text, blanks, sign, end, n)
      && value == if sign == 1 && text[blanks] == 0x2D then -(n as int) else n
  }

  /** The digits a text starts with end here. */
  ghost predicate DigitsTo(text: seq<Byte>, end: nat) {
    end <= |text| && AllDigits(text[..end]) && (end < |text| ==> !Digit(text[end]))
  }

  /** The blanks a text starts with end here. */
  ghost predicate BlanksTo(text: seq<Byte>, end: nat) {
    end <= |text| && (forall i: nat | i < end :: Blank(text[i])) && (end < |text| ==> !Blank(text[end]))
  }

  lemma DigitsBehind(digits: seq<Byte>)
    requires digits != []
    ensures AllDigits(digits) <==> Digit(digits[0]) && AllDigits(digits[1..])
  {
    assert forall i: nat | i < |digits| - 1 :: digits[1..][i] == digits[i + 1];
    if Digit(digits[0]) && AllDigits(digits[1..]) {
      forall i: nat | i < |digits| ensures Digit(digits[i]) {
        if i > 0 { assert digits[1..][i - 1] == digits[i]; }
      }
    }
  }

  lemma {:induction false} DigitsUpTo(text: seq<Byte>, end: nat, seen: nat)
    requires DigitsTo(text, end)
    ensures DigitBytes(text, seen) == DigitBytes(text[..end], seen)
  {
    if end > 0 {
      DigitsBehind(text[..end]);
      assert text[..end][1..] == text[1..][..end - 1];
      DigitsUpTo(text[1..], end - 1, 10 * seen + (text[0] - 0x30));
    }
  }

  lemma {:induction false} DigitsAre(digits: seq<Byte>)
    requires AllDigits(digits)
    ensures DigitBytes(digits, 0) == ValueOf(digits)
  {
    if digits != [] {
      var front, last := digits[..|digits| - 1], digits[|digits| - 1];
      DigitsAre(front);
      DigitsMore(front, last, 0);
      assert digits == front + [last];
    }
  }

  lemma {:induction false} DigitsEnd(text: seq<Byte>)
    ensures exists end: nat :: DigitsTo(text, end)
  {
    if text == [] || !Digit(text[0]) {
      assert DigitsTo(text, 0);
    } else {
      DigitsEnd(text[1..]);
      var n: nat :| DigitsTo(text[1..], n);
      assert text[..n + 1][1..] == text[1..][..n];
      DigitsBehind(text[..n + 1]);
      assert DigitsTo(text, n + 1);
    }
  }

  lemma {:induction false} BlanksEnd(text: seq<Byte>)
    ensures exists end: nat :: BlanksTo(text, end)
  {
    if text == [] || !Blank(text[0]) {
      assert BlanksTo(text, 0);
    } else {
      BlanksEnd(text[1..]);
      var n: nat :| BlanksTo(text[1..], n);
      forall i: nat | i < n + 1 ensures Blank(text[i]) {
        if i > 0 { assert text[1..][i - 1] == text[i]; }
      }
      assert BlanksTo(text, n + 1);
    }
  }

  lemma {:induction false} BlanksAre(text: seq<Byte>, end: nat)
    requires BlanksTo(text, end)
    ensures SkipBlankBytes(text) == text[end..]
  {
    if end > 0 {
      BlanksAre(text[1..], end - 1);
      assert text[1..][end - 1..] == text[end..];
    }
  }

  /** What is read of a text with these blanks, this sign and these digits. */
  lemma ReadsAs(text: seq<Byte>, blanks: nat, sign: nat, length: nat)
    requires BlanksTo(text, blanks) && blanks + sign <= |text| && DigitsTo(text[blanks + sign..], length)
    requires sign == if blanks < |text| && (text[blanks] == 0x2D || text[blanks] == 0x2B) then 1 else 0
    ensures Integer(text) == if length == 0 then None
                             else var n: int := ValueOf(text[blanks + sign..][..length]);
                                  Some(if sign == 1 && text[blanks] == 0x2D then -n else n)
  {
    hide DigitBytes, ValueOf;
    var digits := text[blanks + sign..];
    BlanksAre(text, blanks);
    assert text[blanks..][sign..] == digits;
    if length > 0 {
      assert digits[..length][0] == digits[0];
      DigitsUpTo(digits, length, 0);
      DigitsAre(digits[..length]);
    }
  }

  lemma SpelledIs(text: seq<Byte>, blanks: nat, sign: nat, end: nat, n: nat)
    requires SpelledAt(text, blanks, sign, end, n)
    ensures BlanksTo(text, blanks) && DigitsTo(text[blanks + sign..], end - blanks - sign)
    ensures sign == if text[blanks] == 0x2D || text[blanks] == 0x2B then 1 else 0
    ensures text[blanks + sign..][..end - blanks - sign] == text[blanks + sign..end]
  {
    assert Digit(text[blanks + sign..end][0]);
    assert text[blanks + sign..][..end - blanks - sign] == text[blanks + sign..end];
  }

  lemma SpelledFrom(text: seq<Byte>, blanks: nat, sign: nat, length: nat)
    requires BlanksTo(text, blanks) && blanks + sign <= |text| && DigitsTo(text[blanks + sign..], length) && length > 0
    requires sign == if blanks < |text| && (text[blanks] == 0x2D || text[blanks] == 0x2B) then 1 else 0
    ensures SpelledAt(text, blanks, sign, blanks + sign + length, ValueOf(text[blanks + sign..][..length]))
  {
    hide ValueOf;
    assert text[blanks + sign..][..length] == text[blanks + sign..blanks + sign + length];
  }

  /** A text is read as an integer exactly if it starts with one. */
  lemma IntegerIff(text: seq<Byte>, value: int)
    ensures Integer(text) == Some(value) <==> Spells(text, value)
  {
    hide BlanksTo, DigitsTo, Integer, ValueOf, AllDigits;
    if Spells(text, value) {
      var blanks: nat, sign: nat, end: nat, n: nat :| SpelledAt(text, blanks, sign, end, n)
        && value == if sign == 1 && text[blanks] == 0x2D then -(n as int) else n;
      SpelledReads(text, blanks, sign, end, n);
    }
    if Integer(text) == Some(value) {
      BlanksEnd(text);
      var blanks: nat :| BlanksTo(text, blanks);
      ReadIsSpelled(text, value, blanks);
    }
  }

  lemma SpelledReads(text: seq<Byte>, blanks: nat, sign: nat, end: nat, n: nat)
    requires SpelledAt(text, blanks, sign, end, n)
    ensures Integer(text) == Some(if sign == 1 && text[blanks] == 0x2D then -(n as int) else n)
  {
    hide Integer, ValueOf;
    SpelledIs(text, blanks, sign, end, n);
    ReadsAs(text, blanks, sign, end - blanks - sign);
  }

  lemma ReadIsSpelled(text: seq<Byte>, value: int, blanks: nat)
    requires BlanksTo(text, blanks) && Integer(text) == Some(value)
    ensures Spells(text, value)
  {
    hide Integer, ValueOf, SpelledAt, DigitsTo;
    var sign := if blanks < |text| && (text[blanks] == 0x2D || text[blanks] == 0x2B) then 1 else 0;
    DigitsEnd(text[blanks + sign..]);
    var length: nat :| DigitsTo(text[blanks + sign..], length);
    ReadsAs(text, blanks, sign, length);
    SpelledFrom(text, blanks, sign, length);
  }

  /** The bytes a message of this kind has at least. */
  function Shortest(kind: Byte): nat {
    match kind
    case 0x15 => 4
    case 0x16 => 10
    case 0x17 => 21
    case 0x18 => 3
    case 0x1E => 5
    case _ => 1
  }

  predicate Known(kind: Byte) { kind <= 0x07 || 0x15 <= kind <= 0x18 || 0x1B <= kind <= 0x1E }

  /** The handshake announces more text than there is. */
  predicate TextCutOff(data: seq<Byte>) { |data| >= 5 && data[0] == 0x1E && |data| - 5 < data[4] }

  /** A payload does not parse exactly if it is too short for its kind, or the
      timestamp of an event needs more than six bytes. */
  lemma ThrowsIff(data: seq<Byte>)
    ensures ParseTcp(data).Throws?
            <==> data == [] || |data| < Shortest(data[0]) || TextCutOff(data) || (data[0] == 0x17 && (data[5] != 0 || data[6] != 0))
  {
    hide HandshakeOf;
    if |data| >= 21 { ZeroPair(data[5..7]); }
    if |data| >= 5 && data[0] == 0x1E && !TextCutOff(data) { HandshakeSays(Number(data[1..3]), data[3], data[5..5 + data[4] as int]); }
  }

  lemma ZeroPair(pair: seq<Byte>)
    requires |pair| == 2
    ensures Number(pair) == 0 <==> pair[0] == 0 && pair[1] == 0
  {
    assert Number(pair[..1]) == pair[0];
  }

  ghost predicate NamesTeam(text: seq<Byte>) { exists team: nat :: team <= 0xFFFF && Spells(text, team) }

  /** A handshake is taken if it names a port and a team that fits. */
  lemma HandshakeSays(port: nat, flags: nat, text: seq<Byte>)
    ensures var o := HandshakeOf(port, flags, text);
      && (forall team: nat :: o == Emits(Handshake(team, port, flags)) <==> port != 0 && team <= 0xFFFF && Spells(text, team))
      && (o.Skips? <==> port == 0 || !NamesTeam(text))
      && !o.Throws?
  {
    hide Integer, Spells;
    forall team: nat ensures Integer(text) == Some(team) <==> Spells(text, team) { IntegerIff(text, team); }
  }

  /** A payload that parses is skipped exactly if its kind is not known, or it
      is a handshake that names no port or no team that fits. */
  lemma SkipsIff(data: seq<Byte>)
    ensures ParseTcp(data).Skips?
            <==> data != [] && (!Known(data[0])
                 || (data[0] == 0x1E && |data| >= 5 && !TextCutOff(data)
                     && ((data[1] == 0 && data[2] == 0) || !NamesTeam(data[5..5 + data[4] as int]))))
  {
    hide HandshakeOf, Spells;
    if |data| >= 5 && data[0] == 0x1E && !TextCutOff(data) {
      ZeroPair(data[1..3]);
      HandshakeSays(Number(data[1..3]), data[3], data[5..5 + data[4] as int]);
    }
  }

  /** What follows a message that is all there changes nothing. */
  lemma TailIgnored(data: seq<Byte>, tail: seq<Byte>)
    requires data != [] && |data| >= Shortest(data[0]) && !TextCutOff(data)
    requires data[0] == 0x16 || data[0] == 0x18 || 0x1C <= data[0] <= 0x1E
    ensures ParseTcp(data + tail) == ParseTcp(data)
  {
    hide Number, HandshakeOf, StatusOf, Voltage;
    var all := data + tail;
    if data[0] == 0x16 {
      assert all[3..5] == data[3..5] && all[8..10] == data[8..10];
    } else if data[0] == 0x18 {
      assert all[1..3] == data[1..3];
    } else if data[0] == 0x1E {
      var length: int := data[4];
      assert all[1..3] == data[1..3] && all[5..5 + length] == data[5..5 + length];
    }
  }

  // ── A whole conversation ──────────────────────────────────────────

  predicate Frameable(m: Message) { Sendable(m) && |Encoded(m)| <= 0xFFFF }

  predicate AllFrameable(ms: seq<Message>) { forall i: nat | i < |ms| :: Frameable(ms[i]) }

  function Frame(data: seq<Byte>): seq<Byte>
    requires |data| <= 0xFFFF
  {
    Bytes(2, |data|) + data
  }

  /** The bytes of these messages, one frame after the other. */
  function Sent(ms: seq<Message>): seq<Byte>
    requires AllFrameable(ms)
  {
    if ms == [] then [] else Frame(Encoded(ms[0])) + Sent(ms[1..])
  }

  lemma FirstFrame(data: seq<Byte>, rest: seq<Byte>)
    requires |data| <= 0xFFFF
    ensures Frames(Frame(data) + rest) == [data] + Frames(rest) && Unfinished(Frame(data) + rest) == Unfinished(rest)
  {
    hide Bytes, Number;
    var s := Frame(data) + rest;
    TwoBytes(|data|);
    assert s[..2] == Bytes(2, |data|);
    assert s[2..2 + |data|] == data && s[2 + |data|..] == rest;
  }

  ghost predicate AllEmit(payloads: seq<seq<Byte>>) { forall i: nat | i < |payloads| :: ParseTcp(payloads[i]).Emits? }

  lemma SaysFirst(first: seq<Byte>, m: Message, others: seq<seq<Byte>>)
    requires ParseTcp(first) == Emits(m)
    ensures Messages([first] + others) == [m] + Messages(others)
    ensures AllEmit(others) ==> AllEmit([first] + others)
  {
    hide ParseTcp;
    assert ([first] + others)[1..] == others;
  }

  lemma {:induction false} SentFrames(ms: seq<Message>)
    requires AllFrameable(ms)
    ensures Unfinished(Sent(ms)) == [] && Messages(Frames(Sent(ms))) == ms && AllEmit(Frames(Sent(ms)))
  {
    hide ParseTcp, Sendable, Encoded, Frame, Frames, Unfinished, Messages, AllEmit;
    if ms != [] {
      SentFrames(ms[1..]);
      FirstFrame(Encoded(ms[0]), Sent(ms[1..]));
      TcpRoundTrip(ms[0]);
      SaysFirst(Encoded(ms[0]), ms[0], Frames(Sent(ms[1..])));
    } else {
      NothingSent();
    }
  }

  lemma NothingSent()
    ensures Unfinished([]) == [] && Messages(Frames([])) == [] && AllEmit(Frames([]))
  {
    assert Frames([]) == [];
  }

  /** However the network cuts what a Driver Station sends into chunks, the
      field is told exactly the messages sent, in order, and holds nothing back. */
  lemma SentIsTold(ms: seq<Message>, chunks: seq<seq<Byte>>)
    requires AllFrameable(ms) && Concat(chunks) == Sent(ms)
    ensures FeedAll(chunks) == Held(ms, [])
  {
    hide ParseTcp, FeedAll, Concat, Sent;
    SentFrames(ms);
    FedExactly(chunks);
  }
}
