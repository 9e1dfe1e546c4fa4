/** The status packet a Driver Station sends over UDP: eight bytes the field
    needs, then tags it can do without. */
module UdpStatus {
  import opened Buffers
  import opened Field
  import opened Framer

  datatype Mode = TeleOpMode | TestMode | AutoMode

  /** A mode number of three names no mode. */
  datatype DsStatus = DsStatus(eStop: bool, aStop: bool, robotComms: bool, radioPing: bool, rioPing: bool, enabled: bool, mode: Option<Mode>)

  datatype Metrics =
    | FieldRadio(signalStrength: nat, bandwidth: nat)
    | Comms(lostPackets: nat, sentPackets: nat, roundTripTime: nat)
    | Laptop(battery: nat, cpu: nat)
    | RobotRadio(signalStrength: nat, bandwidth: nat)
    | PowerDistribution

  datatype Header = Header(sequence: nat, commVersion: nat, status: DsStatus, rawStatus: Byte, teamNumber: nat, voltage: Option<real>)

  datatype UdpMessage = UdpMessage(header: Header, tags: seq<Metrics>)

  const HEADER_BYTES: nat := 8

  function ModeOf(b: Byte): Option<Mode> {
    match b % 4 case 0 => Some(TeleOpMode) case 1 => Some(TestMode) case 2 => Some(AutoMode) case _ => None
  }

  function DsStatusOf(b: Byte): DsStatus {
    DsStatus(Bit(b, 0x80), Bit(b, 0x40), Bit(b, 0x20), Bit(b, 0x10), Bit(b, 0x08), Bit(b, 0x04), ModeOf(b))
  }

  function HeaderOf(bytes: seq<Byte>): Header
    requires |bytes| == HEADER_BYTES
  {
    Header(Number(bytes[..2]), bytes[2], DsStatusOf(bytes[3]), bytes[3], Number(bytes[4..6]), Voltage(Number(bytes[6..8])))
  }

  // ── Tags ──────────────────────────────────────────────────────────

  /** What one tag says. One that is too short for its type, or of a type
      nobody knows, says nothing. */
  function Said(tag: seq<Byte>): Option<Metrics>
    requires tag != []
  {
    if tag[0] == 0x00 && |tag| >= 4 then Some(FieldRadio(tag[1], Number(tag[2..4])))
    else if tag[0] == 0x01 && |tag| >= 6 then Some(Comms(Number(tag[1..3]), Number(tag[3..5]), tag[5]))
    else if tag[0] == 0x02 && |tag| >= 3 then Some(Laptop(tag[1], tag[2]))
    else if tag[0] == 0x03 && |tag| >= 4 then Some(RobotRadio(tag[1], Number(tag[2..4])))
    else if tag[0] == 0x04 then Some(PowerDistribution)
    else None
  }

  /** Whether the bytes begin with a whole tag: a size that is not zero, and
      as many bytes. */
  predicate HasTag(s: seq<Byte>) { s != [] && 0 < s[0] < |s| }

  /** The tags the bytes begin with, before the first that is not whole. */
  function WholeTags(s: seq<Byte>): (tags: seq<seq<Byte>>)
    ensures forall t :: t in tags ==> 0 < |t| <= 255
  {
    if HasTag(s) then [s[1..1 + s[0] as int]] + WholeTags(s[1 + s[0] as int..]) else []
  }

  /** What is left from there on, which nobody reads. */
  function Junk(s: seq<Byte>): seq<Byte> {
    if HasTag(s) then Junk(s[1 + s[0] as int..]) else s
  }

  predicate TagSizes(tags: seq<seq<Byte>>) { forall t :: t in tags ==> 0 < |t| <= 255 }

  /** How tags are laid out: each after its size. */
  function Packed(tags: seq<seq<Byte>>): seq<Byte>
    requires TagSizes(tags)
  {
    if tags == [] then [] else [|tags[0]|] + tags[0] + Packed(tags[1..])
  }

  function Saying(tag: seq<Byte>): seq<Metrics>
    requires tag != []
  {
    if Said(tag).Some? then [Said(tag).value] else []
  }

  function AllSaid(tags: seq<seq<Byte>>): seq<Metrics>
    requires TagSizes(tags)
  {
    if tags == [] then [] else Saying(tags[0]) + AllSaid(tags[1..])
  }

  function ParseUdp(packet: seq<Byte>): Result<UdpMessage> {
    if |packet| < HEADER_BYTES then Err(Overflow)
    else Ok(UdpMessage(HeaderOf(packet[..HEADER_BYTES]), AllSaid(WholeTags(packet[HEADER_BYTES..]))))
  }

  lemma TagAndRest(tag: seq<Byte>, rest: seq<Byte>)
    requires 0 < |tag| <= 255
    ensures var s := [|tag|] + tag + rest;
            HasTag(s) && s[1..1 + s[0] as int] == tag && s[1 + s[0] as int..] == rest
  {
  }

  lemma FirstTag(s: seq<Byte>)
    requires HasTag(s)
    ensures var n := 1 + s[0] as int; |s[1..n]| == s[0] as int && s == [|s[1..n]|] + s[1..n] + s[n..]
  {
  }

  /** The bytes after the header fall apart in one way only: whole tags, then
      something that does not begin with one. */
  lemma {:induction false} Apart(s: seq<Byte>)
    ensures Packed(WholeTags(s)) + Junk(s) == s && !HasTag(Junk(s))
    decreases |s|
  {
    hide HasTag;
    if HasTag(s) {
      FirstTag(s);
      var first, rest := s[1..1 + s[0] as int], s[1 + s[0] as int..];
      Apart(rest);
      assert WholeTags(s) == [first] + WholeTags(rest);
      assert WholeTags(s)[1..] == WholeTags(rest);
      Assoc([|first|] + first, Packed(WholeTags(rest)), Junk(rest));
    }
  }

  lemma PackedFirst(tags: seq<seq<Byte>>, junk: seq<Byte>)
    requires TagSizes(tags) && tags != []
    ensures var s := Packed(tags) + junk;
            && HasTag(s) && s[1..1 + s[0] as int] == tags[0]
            && s[1 + s[0] as int..] == Packed(tags[1..]) + junk
  {
    hide HasTag;
    Assoc([|tags[0]|] + tags[0], Packed(tags[1..]), junk);
    TagAndRest(tags[0], Packed(tags[1..]) + junk);
  }

  lemma {:induction false} OneWay(tags: seq<seq<Byte>>, junk: seq<Byte>)
    requires TagSizes(tags) && !HasTag(junk)
    ensures WholeTags(Packed(tags) + junk) == tags && Junk(Packed(tags) + junk) == junk
  {
    hide HasTag;
    if tags == [] {
      assert Packed(tags) + junk == junk;
    } else {
      PackedFirst(tags, junk);
      OneWay(tags[1..], junk);
      assert tags == [tags[0]] + tags[1..];
    }
  }

  /** Every packet with a header parses, and its header is read from its first
      eight bytes alone: whatever tags follow, whole or not, short or unknown,
      each says what it says by itself, and what follows them is ignored. */
  lemma TagsDisturbNothing(header: seq<Byte>, tags: seq<seq<Byte>>, junk: seq<Byte>)
    requires |header| == HEADER_BYTES && TagSizes(tags) && !HasTag(junk)
    ensures ParseUdp(header + Packed(tags) + junk) == Ok(UdpMessage(HeaderOf(header), AllSaid(tags)))
  {
    hide HeaderOf, AllSaid;
    var packet := header + Packed(tags) + junk;
    assert packet[..HEADER_BYTES] == header && packet[HEADER_BYTES..] == Packed(tags) + junk;
    OneWay(tags, junk);
  }

  lemma {:induction false} SaidInOrder(a: seq<seq<Byte>>, b: seq<seq<Byte>>)
    requires TagSizes(a) && TagSizes(b)
    ensures AllSaid(a + b) == AllSaid(a) + AllSaid(b)
  {
    hide Saying;
    if a == [] {
      assert a + b == b;
    } else {
      assert (a + b)[1..] == a[1..] + b;
      SaidInOrder(a[1..], b);
      Assoc(Saying(a[0]), AllSaid(a[1..]), AllSaid(b));
    }
  }

  /** A tag that says nothing can be left out. */
  lemma SilentTag(header: seq<Byte>, before: seq<seq<Byte>>, tag: seq<Byte>, after: seq<seq<Byte>>, junk: seq<Byte>)
    requires |header| == HEADER_BYTES && TagSizes(before) && TagSizes(after) && 0 < |tag| <= 255 && !HasTag(junk)
    requires Said(tag).None?
    ensures TagSizes(before + [tag] + after) && TagSizes(before + after)
    ensures ParseUdp(header + Packed(before + [tag] + after) + junk) == ParseUdp(header + Packed(before + after) + junk)
  {
    hide Said, ParseUdp, Packed;
    TagsDisturbNothing(header, before + [tag] + after, junk);
    TagsDisturbNothing(header, before + after, junk);
    SaidInOrder(before + [tag], after);
    SaidInOrder(before, [tag]);
    SaidInOrder(before, after);
    SaysNothing(tag);
    assert AllSaid(before) + [] == AllSaid(before);
  }

  lemma SaysNothing(tag: seq<Byte>)
    requires 0 < |tag| <= 255 && Said(tag).None?
    ensures AllSaid([tag]) == []
  {
  }

  // ── An encoder, undone ────────────────────────────────────────────

  predicate Sendable(m: Metrics) {
    match m
    case FieldRadio(signal, bandwidth) => signal < 256 && bandwidth < 0x1_0000
    case Comms(lost, sent, trip) => lost < 0x1_0000 && sent < 0x1_0000 && trip < 256
    case Laptop(battery, cpu) => battery < 256 && cpu < 256
    case RobotRadio(signal, bandwidth) => signal < 256 && bandwidth < 0x1_0000
    case PowerDistribution => true
  }

  function Tag(m: Metrics): (tag: seq<Byte>)
    requires Sendable(m)
    ensures 0 < |tag| <= 255
  {
    match m
    case FieldRadio(signal, bandwidth) => [0x00, signal] + Bytes(2, bandwidth)
    case Comms(lost, sent, trip) => [0x01] + Bytes(2, lost) + Bytes(2, sent) + [trip]
    case Laptop(battery, cpu) => [0x02, battery, cpu]
    case RobotRadio(signal, bandwidth) => [0x03, signal] + Bytes(2, bandwidth)
    case PowerDistribution => [0x04]
  }

  lemma TwoBytes(value: nat)
    requires value < 0x1_0000
    ensures |Bytes(2, value)| == 2 && Number(Bytes(2, value)) == value
  {
    assert Span(1) == 256 && Span(2) == 0x1_0000;
    NumberOfBytes(2, value);
  }

  lemma RadioTagSays(m: Metrics)
    requires Sendable(m) && (m.FieldRadio? || m.RobotRadio?)
    ensures Said(Tag(m)) == Some(m)
  {
    hide Bytes, Number;
    TwoBytes(m.bandwidth);
    assert Tag(m)[2..4] == Bytes(2, m.bandwidth);
  }

  lemma CommsTagSays(m: Metrics)
    requires Sendable(m) && m.Comms?
    ensures Said(Tag(m)) == Some(m)
  {
    hide Bytes, Number;
    TwoBytes(m.lostPackets);
    TwoBytes(m.sentPackets);
    assert Tag(m)[1..3] == Bytes(2, m.lostPackets) && Tag(m)[3..5] == Bytes(2, m.sentPackets);
  }

  lemma TagSays(m: Metrics)
    requires Sendable(m)
    ensures Said(Tag(m)) == Some(m)
  {
    match m
    case FieldRadio(_, _) => RadioTagSays(m);
    case Comms(_, _, _) => CommsTagSays(m);
    case Laptop(_, _) =>
    case RobotRadio(_, _) => RadioTagSays(m);
    case PowerDistribution =>
  }

  function Encoded(metrics: seq<Metrics>): (tags: seq<seq<Byte>>)
    requires forall m :: m in metrics ==> Sendable(m)
    ensures TagSizes(tags) && |tags| == |metrics|
  {
    if metrics == [] then [] else [Tag(metrics[0])] + Encoded(metrics[1..])
  }

  lemma {:induction false} EncodedSays(metrics: seq<Metrics>)
    requires forall m :: m in metrics ==> Sendable(m)
    ensures AllSaid(Encoded(metrics)) == metrics
  {
    hide Said, Tag;
    if metrics != [] {
      EncodedSays(metrics[1..]);
      TagSays(metrics[0]);
      assert Encoded(metrics)[1..] == Encoded(metrics[1..]);
    }
  }

  /** Parsing undoes encoding. */
  lemma RoundTrip(header: seq<Byte>, metrics: seq<Metrics>)
    requires |header| == HEADER_BYTES && forall m :: m in metrics ==> Sendable(m)
    ensures ParseUdp(header + Packed(Encoded(metrics))) == Ok(UdpMessage(HeaderOf(header), metrics))
  {
    hide HeaderOf, ParseUdp, Packed, Encoded, AllSaid;
    EncodedSays(metrics);
    TagsDisturbNothing(header, Encoded(metrics), []);
    assert header + Packed(Encoded(metrics)) + [] == header + Packed(Encoded(metrics));
  }

  // ── The parser, with its cursor ───────────────────────────────────

  method ParseTag(tag: seq<Byte>, tags: seq<Metrics>) returns (r: seq<Metrics>)
    requires tag != []
    ensures r == tags + Saying(tag)
  {
    var t := new BufferReader(tag);
    var kind := t.ReadNumber(1);
    One(tag, 0);
    match kind.value
    case 0x00 => r := ParseRadio(t, tags, true);
    case 0x01 => r := ParseComms(t, tags);
    case 0x02 =>
      var battery := t.ReadNumber(1);
      var cpu := t.ReadNumber(1);
      if battery.Err? || cpu.Err? {
        return tags;
      }
      One(tag, 1);
      One(tag, 2);
      return tags + [Laptop(battery.value, cpu.value)];
    case 0x03 => r := ParseRadio(t, tags, false);
    case 0x04 => return tags + [PowerDistribution];
    case _ => return tags;
  }

  method ParseRadio(t: BufferReader, tags: seq<Metrics>, field: bool) returns (r: seq<Metrics>)
    requires t.Valid() && t.offset == 1 && t.buffer != [] && t.buffer[0] == if field then 0x00 else 0x03
    modifies t`offset
    ensures r == tags + Saying(t.buffer)
  {
    var signal := t.ReadNumber(1);
    if signal.Err? {
      return tags;
    }
    One(t.buffer, 1);
    var bandwidth := t.ReadNumber(2);
    if bandwidth.Err? {
      return tags;
    }
    return tags + [if field then FieldRadio(signal.value, bandwidth.value) else RobotRadio(signal.value, bandwidth.value)];
  }

  method ParseComms(t: BufferReader, tags: seq<Metrics>) returns (r: seq<Metrics>)
    requires t.Valid() && t.offset == 1 && t.buffer != [] && t.buffer[0] == 0x01
    modifies t`offset
    ensures r == tags + Saying(t.buffer)
  {
    var lost := t.ReadNumber(2);
    if lost.Err? {
      return tags;
    }
    var sent := t.ReadNumber(2);
    if sent.Err? {
      return tags;
    }
    var trip := t.ReadNumber(1);
    if trip.Err? {
      return tags;
    }
    One(t.buffer, 5);
    return tags + [Comms(lost.value, sent.value, trip.value)];
  }

  /** One tag, if it is whole. */
  method TakeTag(reader: BufferReader, tags: seq<Metrics>) returns (r: seq<Metrics>, going: bool)
    requires reader.Valid() && reader.Remaining() > 0
    modifies reader`offset
    ensures reader.Valid() && old(reader.offset) <= reader.offset
    ensures going ==> reader.Remaining() < old(reader.Remaining())
    ensures tags + AllSaid(WholeTags(old(reader.buffer[reader.offset..])))
            == r + if going then AllSaid(WholeTags(reader.buffer[reader.offset..])) else []
  {
    hide Saying, AllSaid, WholeTags;
    ghost var left := reader.buffer[reader.offset..];
    One(reader.buffer, reader.offset);
    var size := reader.ReadNumber(1);
    if size.value == 0 || size.value > reader.Remaining() {
      NoTag(left);
      return tags, false;
    }
    var tag := reader.ReadSlice(size.value);
    assert HasTag(left) && tag.value == left[1..1 + left[0] as int] && reader.buffer[reader.offset..] == left[1 + left[0] as int..];
    NextTag(left);
    r := ParseTag(tag.value, tags);
    Assoc(tags, Saying(tag.value), AllSaid(WholeTags(reader.buffer[reader.offset..])));
    return r, true;
  }

  lemma NoTag(s: seq<Byte>)
    requires !HasTag(s)
    ensures AllSaid(WholeTags(s)) == []
  {
  }

  lemma NextTag(s: seq<Byte>)
    requires HasTag(s)
    ensures var n := 1 + s[0] as int; AllSaid(WholeTags(s)) == Saying(s[1..n]) + AllSaid(WholeTags(s[n..]))
  {
  }

  method ParseIncomingUdpMessage(packet: seq<Byte>) returns (r: Result<UdpMessage>)
    ensures r == ParseUdp(packet)
  {
    hide AllSaid, WholeTags;
    var reader := new BufferReader(packet);
    var header := ParseHeader(reader);
    if header.Err? {
      return Err(Overflow);
    }
    var tags: seq<Metrics> := [];
    ghost var all := AllSaid(WholeTags(packet[HEADER_BYTES..]));
    var going := true;
    while going && reader.Remaining() > 0
      invariant reader.Valid()
      invariant tags + (if going then AllSaid(WholeTags(packet[reader.offset..])) else []) == all
      decreases going, reader.Remaining()
    {
      tags, going := TakeTag(reader, tags);
    }
    if going {
      assert packet[reader.offset..] == [];
      NoTags();
    }
    assert tags + [] == tags;
    return Ok(UdpMessage(header.value, tags));
  }

  lemma NoTags()
    ensures AllSaid(WholeTags([])) == []
  {
  }

  method ParseHeader(r: BufferReader) returns (header: Result<Header>)
    requires r.Valid() && r.offset == 0
    modifies r`offset
    ensures r.Valid()
    ensures if |r.buffer| < HEADER_BYTES then header == Err(Overflow)
            else header == Ok(HeaderOf(r.buffer[..HEADER_BYTES])) && r.offset == HEADER_BYTES
  {
    var p := r.buffer;
    var sequence := r.ReadNumber(2);
    var version := r.ReadNumber(1);
    var raw := r.ReadNumber(1);
    var team := r.ReadNumber(2);
    var volts := r.ReadNumber(2);
    if sequence.Err? || version.Err? || raw.Err? || team.Err? || volts.Err? {
      return Err(Overflow);
    }
    One(p, 2);
    One(p, 3);
    var h := p[..HEADER_BYTES];
    assert h[..2] == p[0..2] && h[4..6] == p[4..6] && h[6..8] == p[6..8];
    return Ok(Header(sequence.value, version.value, DsStatusOf(raw.value), raw.value, team.value, Voltage(volts.value)));
  }
}
