/** The stream a Driver Station sends over TCP: length-prefixed messages, cut
    into chunks wherever the network likes. */
module Framer {
  import opened Buffers
  import opened Field

  // ── One message ───────────────────────────────────────────────────

  datatype Flags = Flags(teleOp: bool, auto: bool, disable: bool)

  datatype Status = Status(brownout: bool, watchdog: bool, ds: Flags, robot: Flags)

  /** Text is kept as the bytes that spell it. */
  datatype Message =
    | Version(kind: Byte, version: seq<Byte>)
    | UsageReport(teamNumber: nat, unknown: nat, entries: seq<Byte>)
    | LogData(roundTripTime: nat, lostPackets: nat, voltage: Option<real>, status: Status, can: nat, signalDb: nat, bandwidth: real)
    | ErrorAndEvent(messageCount: nat, timestamp: nat, unknownBytes: seq<Byte>, text: seq<Byte>)
    | TeamNumber(teamNumber: nat)
    | Handshake(teamNumber: nat, udpPort: nat, flags: nat)
    | ChallengeResponse(response: seq<Byte>)
    | Ping | KeepAlive

  /** What a payload parses to: a message, nothing (the payload is skipped), or
      an exception. */
  datatype Outcome = Emits(message: Message) | Skips | Throws

  predicate Bit(b: Byte, mask: nat)
    requires mask > 0
  {
    (b / mask) % 2 == 1
  }

  function StatusOf(b: Byte): Status {
    Status(Bit(b, 0x80), Bit(b, 0x40), Flags(Bit(b, 0x20), Bit(b, 0x10), Bit(b, 0x08)), Flags(Bit(b, 0x04), Bit(b, 0x02), Bit(b, 0x01)))
  }

  /** No reading is 0xFFFF, or 0. */
  function Voltage(raw: nat): Option<real> {
    if raw == 0xFFFF || raw == 0 then None else Some(raw as real / 256.0)
  }

  predicate Blank(b: Byte) { b == 0x20 || 0x09 <= b <= 0x0D }

  predicate Digit(b: Byte) { 0x30 <= b <= 0x39 }

  function SkipBlankBytes(text: seq<Byte>): seq<Byte> {
    if text == [] || !Blank(text[0]) then text else SkipBlankBytes(text[1..])
  }

  function DigitBytes(text: seq<Byte>, seen: nat): nat {
    if text == [] || !Digit(text[0]) then seen else DigitBytes(text[1..], 10 * seen + (text[0] - 0x30))
  }

  /** The integer a text starts with, if it starts with one. */
  function Integer(text: seq<Byte>): Option<int> {
    var t := SkipBlankBytes(text);
    var negative := t != [] && t[0] == 0x2D;
    var digits := if t != [] && (t[0] == 0x2D || t[0] == 0x2B) then t[1..] else t;
    if digits == [] || !Digit(digits[0]) then None
    else
      var value: int := DigitBytes(digits, 0);
      Some(if negative then -value else value)
  }

  function HandshakeOf(udpPort: nat, flags: nat, text: seq<Byte>): Outcome {
    var team := Integer(text);
    if team.None? || team.value < 0 || team.value > 0xFFFF || udpPort == 0 then Skips
    else Emits(Handshake(team.value, udpPort, flags))
  }

  function Twice(n: nat): nat { 2 * n }

  function ParseTcp(data: seq<Byte>): Outcome {
    if data == [] then Throws
    else if data[0] <= 0x07 then Emits(Version(data[0], data[1..]))
    else if data[0] == 0x15 then
      if |data| < 4 then Throws else Emits(UsageReport(Number(data[1..3]), data[3], data[4..]))
    else if data[0] == 0x16 then
      if |data| < 10 then Throws
      else Emits(LogData(data[1], data[2], Voltage(Number(data[3..5])), StatusOf(data[5]), Twice(data[6]), Twice(data[7]),
                         Number(data[8..10]) as real / 256.0))
    else if data[0] == 0x17 then
      if |data| < 21 || Number(data[5..7]) != 0 then Throws
      else Emits(ErrorAndEvent(Number(data[1..5]), Number(data[7..13]), data[13..21], data[21..]))
    else if data[0] == 0x18 then
      if |data| < 3 then Throws else Emits(TeamNumber(Number(data[1..3])))
    else if data[0] == 0x1E then
      if |data| < 5 || |data| - 5 < data[4] then Throws
      else
        var length: int := data[4];
        HandshakeOf(Number(data[1..3]), data[3], data[5..5 + length])
    else if data[0] == 0x1B then Emits(ChallengeResponse(data[1..]))
    else if data[0] == 0x1C then Emits(Ping)
    else if data[0] == 0x1D then Emits(KeepAlive)
    else Skips
  }

  method ParseIncomingTcpMessage(data: seq<Byte>) returns (o: Outcome)
    ensures o == ParseTcp(data)
  {
    var r := new BufferReader(data);
    var kind := r.ReadNumber(1);
    if kind.Err? {
      return Throws;
    }
    One(data, 0);
    match kind.value
    case 0x15 =>
      var team := r.ReadNumber(2);
      var unknown := r.ReadNumber(1);
      if team.Err? || unknown.Err? {
        return Throws;
      }
      One(data, 3);
      var entries := r.ReadRest();
      return Emits(UsageReport(team.value, unknown.value, entries));
    case 0x16 =>
      o := ParseLogData(r);
    case 0x17 =>
      o := ParseErrorAndEvent(r);
    case 0x18 =>
      var team := r.ReadNumber(2);
      return if team.Err? then Throws else Emits(TeamNumber(team.value));
    case 0x1E =>
      o := ParseHandshake(r);
    case 0x1B =>
      var response := r.ReadRest();
      return Emits(ChallengeResponse(response));
    case 0x1C => return Emits(Ping);
    case 0x1D => return Emits(KeepAlive);
    case _ =>
      if kind.value > 0x07 {
        return Skips;
      }
      var version := r.ReadRest();
      return Emits(Version(kind.value, version));
  }

  lemma One(data: seq<Byte>, at: nat)
    requires at < |data|
    ensures Number(data[at..at + 1]) == data[at]
  {
  }

  method ParseLogData(r: BufferReader) returns (o: Outcome)
    requires r.Valid() && r.offset == 1 && r.buffer != [] && r.buffer[0] == 0x16
    modifies r`offset
    ensures o == ParseTcp(r.buffer)
  {
    var data := r.buffer;
    var trip := r.ReadNumber(1);
    var lost := r.ReadNumber(1);
    var volts := r.ReadNumber(2);
    var status := r.ReadNumber(1);
    var can := r.ReadNumber(1);
    var signal := r.ReadNumber(1);
    var bandwidth := r.ReadNumber(2);
    if trip.Err? || lost.Err? || volts.Err? || status.Err? || can.Err? || signal.Err? || bandwidth.Err? {
      return Throws;
    }
    One(data, 1);
    One(data, 2);
    One(data, 5);
    One(data, 6);
    One(data, 7);
    return Emits(LogData(trip.value, lost.value, Voltage(volts.value), StatusOf(status.value), Twice(can.value), Twice(signal.value),
                         bandwidth.value as real / 256.0));
  }

  method ParseErrorAndEvent(r: BufferReader) returns (o: Outcome)
    requires r.Valid() && r.offset == 1 && r.buffer != [] && r.buffer[0] == 0x17
    modifies r`offset
    ensures o == ParseTcp(r.buffer)
  {
    var count := r.ReadNumber(4);
    if count.Err? {
      return Throws;
    }
    var timestamp := r.ReadNumber(8);
    if timestamp.Err? {
      return Throws;
    }
    var unknown := r.ReadSlice(8);
    if unknown.Err? {
      return Throws;
    }
    var text := r.ReadRest();
    return Emits(ErrorAndEvent(count.value, timestamp.value, unknown.value, text));
  }

  method ParseHandshake(r: BufferReader) returns (o: Outcome)
    requires r.Valid() && r.offset == 1 && r.buffer != [] && r.buffer[0] == 0x1E
    modifies r`offset
    ensures o == ParseTcp(r.buffer)
  {
    var data := r.buffer;
    var port := r.ReadNumber(2);
    var flags := r.ReadNumber(1);
    var length := r.ReadNumber(1);
    if port.Err? || flags.Err? || length.Err? {
      return Throws;
    }
    One(data, 3);
    One(data, 4);
    var text := r.ReadSlice(length.value);
    return if text.Err? then Throws else HandshakeOf(port.value, flags.value, text.value);
  }

  // ── Frames ────────────────────────────────────────────────────────

  function Length(s: seq<Byte>): nat
    requires |s| >= 2
  {
    Number(s[..2])
  }

  predicate HasFrame(s: seq<Byte>) { |s| >= 2 && |s| >= 2 + Length(s) }

  /** The payloads of the complete frames of a stream. */
  function Frames(s: seq<Byte>): seq<seq<Byte>> {
    if HasFrame(s) then [s[2..2 + Length(s)]] + Frames(s[2 + Length(s)..]) else []
  }

  /** The frame the stream breaks off in. */
  function Unfinished(s: seq<Byte>): seq<Byte> {
    if HasFrame(s) then Unfinished(s[2 + Length(s)..]) else s
  }

  function Told(payload: seq<Byte>): seq<Message> {
    match ParseTcp(payload) case Emits(m) => [m] case _ => []
  }

  /** What the payloads say, in order. */
  function Messages(payloads: seq<seq<Byte>>): seq<Message> {
    if payloads == [] then [] else Told(payloads[0]) + Messages(payloads[1..])
  }

  lemma {:induction false} MessagesOfMore(a: seq<seq<Byte>>, b: seq<seq<Byte>>)
    ensures Messages(a + b) == Messages(a) + Messages(b)
  {
    hide Told;
    if a == [] {
      assert a + b == b;
    } else {
      assert (a + b)[1..] == a[1..] + b;
      MessagesOfMore(a[1..], b);
      Assoc(Told(a[0]), Messages(a[1..]), Messages(b));
    }
  }

  lemma FirstOfMore(s: seq<Byte>, t: seq<Byte>)
    requires HasFrame(s)
    ensures HasFrame(s + t) && Length(s + t) == Length(s)
    ensures var n := 2 + Length(s); (s + t)[2..n] == s[2..n] && (s + t)[n..] == s[n..] + t
  {
    assert (s + t)[..2] == s[..2];
  }

  /** More bytes complete the frame broken off, and no earlier one. */
  lemma {:induction false} FramesOfMore(s: seq<Byte>, t: seq<Byte>)
    ensures Frames(s + t) == Frames(s) + Frames(Unfinished(s) + t)
    ensures Unfinished(s + t) == Unfinished(Unfinished(s) + t)
    decreases |s|
  {
    hide Length;
    if HasFrame(s) {
      var first, rest := s[2..2 + Length(s)], s[2 + Length(s)..];
      FirstOfMore(s, t);
      FramesOfMore(rest, t);
      assert Frames(s + t) == [first] + Frames(rest + t);
      Assoc([first], Frames(rest), Frames(Unfinished(rest) + t));
    } else {
      assert Frames(s) == [] && Unfinished(s) == s;
    }
  }

  // ── The decoder ───────────────────────────────────────────────────

  datatype Held = Held(pushed: seq<Message>, rest: seq<Byte>)

  /** One pass over what has arrived. It stops at a frame that is not all
      there, and also after one whose payload does not parse. */
  function Drain(s: seq<Byte>): Held {
    if !HasFrame(s) then Held([], s)
    else
      var rest := s[2 + Length(s)..];
      match ParseTcp(s[2..2 + Length(s)])
      case Throws => Held([], rest)
      case Skips => Drain(rest)
      case Emits(m) => var later := Drain(rest); Held([m] + later.pushed, later.rest)
  }

  function Feed(h: Held, chunk: seq<Byte>): Held {
    var next := Drain(h.rest + chunk);
    Held(h.pushed + next.pushed, next.rest)
  }

  class ByteToObjectTransform {
    var unprocessed: seq<seq<Byte>>
    var pushed: seq<Message>

    ghost function View(): Held
      reads this
    {
      Held(pushed, Concat(unprocessed))
    }

    constructor ()
      ensures View() == Held([], [])
    {
      unprocessed, pushed := [], [];
    }

    method Transform(chunk: seq<Byte>)
      modifies this
      ensures View() == Feed(old(View()), chunk)
    {
      hide Drain, Concat;
      ConcatMore(unprocessed, chunk);
      unprocessed := unprocessed + [chunk];
      ghost var before := pushed;
      var all := Concatenated(unprocessed);
      var buff := new BufferReader(all);
      var going := true;
      assert all[0..] == all;
      while going && buff.Remaining() >= 2
        invariant buff.Valid() && buff.buffer == all && unprocessed == old(unprocessed) + [chunk]
        invariant (if going then After(pushed, all[buff.offset..]) else Held(pushed, all[buff.offset..])) == After(before, all)
        decreases going, buff.Remaining()
      {
        going := TakeFrame(buff);
      }
      if going {
        TooShort(all[buff.offset..]);
      }
      var rest := buff.ReadRest();
      unprocessed := [rest];
      ConcatMore([], rest);
      EmptyConcat();
      assert [] + [rest] == [rest];
    }

    /** One frame, if it is all there. */
    method TakeFrame(buff: BufferReader) returns (going: bool)
      requires buff.Valid() && buff.Remaining() >= 2
      modifies `pushed, buff`offset
      ensures buff.Valid() && (going ==> buff.Remaining() < old(buff.Remaining()))
      ensures var left := buff.buffer[buff.offset..];
              (if going then After(pushed, left) else Held(pushed, left)) == After(old(pushed), buff.buffer[old(buff.offset)..])
    {
      hide Drain, ParseTcp;
      ghost var left := buff.buffer[buff.offset..];
      assert left[..2] == buff.buffer[buff.offset..buff.offset + 2];
      DrainUnrolled(left);
      var data := buff.ReadSizedBuffer(2);
      if data.Err? {
        return false;
      }
      assert data.value == left[2..2 + Length(left)];
      assert buff.buffer[buff.offset..] == left[2 + Length(left)..];
      var parsed := ParseIncomingTcpMessage(data.value);
      match parsed
      case Throws => return false;
      case Skips => return true;
      case Emits(m) =>
        pushed := pushed + [m];
        return true;
    }
  }

  /** What a pass over `s` makes of a decoder that has pushed `pushed`. */
  function After(pushed: seq<Message>, s: seq<Byte>): Held { Held(pushed + Drain(s).pushed, Drain(s).rest) }

  lemma DrainUnrolled(s: seq<Byte>)
    ensures !HasFrame(s) ==> Drain(s) == Held([], s)
    ensures HasFrame(s) ==>
              var rest := s[2 + Length(s)..];
              match ParseTcp(s[2..2 + Length(s)])
              case Throws => Drain(s) == Held([], rest)
              case Skips => Drain(s) == Drain(rest)
              case Emits(m) => Drain(s) == Held([m] + Drain(rest).pushed, Drain(rest).rest)
  {
  }

  lemma TooShort(s: seq<Byte>)
    requires |s| < 2
    ensures forall pushed: seq<Message> :: After(pushed, s) == Held(pushed, s)
  {
  }

  lemma EmptyConcat()
    ensures Concat([]) == []
  {
  }

  function Concat(chunks: seq<seq<Byte>>): seq<Byte> { if chunks == [] then [] else Concat(chunks[..|chunks| - 1]) + chunks[|chunks| - 1] }

  lemma ConcatMore(chunks: seq<seq<Byte>>, chunk: seq<Byte>)
    ensures Concat(chunks + [chunk]) == Concat(chunks) + chunk
  {
  }

  method Concatenated(chunks: seq<seq<Byte>>) returns (whole: seq<Byte>)
    ensures whole == Concat(chunks)
  {
    whole := [];
    for i := 0 to |chunks|
      invariant whole == Concat(chunks[..i])
    {
      assert chunks[..i + 1] == chunks[..i] + [chunks[i]];
      ConcatMore(chunks[..i], chunks[i]);
      whole := whole + chunks[i];
    }
    assert chunks[..|chunks|] == chunks;
  }

  // ── Framing does not depend on the chunks ─────────────────────────

  function FeedAll(chunks: seq<seq<Byte>>): Held {
    if chunks == [] then Held([], []) else Feed(FeedAll(chunks[..|chunks| - 1]), chunks[|chunks| - 1])
  }

  /** Every complete frame told, and only the unfinished one kept. */
  function Exactly(s: seq<Byte>): Held { Held(Messages(Frames(s)), Unfinished(s)) }

  /** No complete frame comes after one whose payload does not parse. */
  predicate OnlyLastThrows(payloads: seq<seq<Byte>>) {
    forall i: nat | i < |payloads| - 1 :: !ParseTcp(payloads[i]).Throws?
  }

  lemma {:induction false} UnfinishedIsShort(s: seq<Byte>)
    ensures |Unfinished(s)| <= |s| && !HasFrame(Unfinished(s))
    decreases |s|
  {
    if HasFrame(s) {
      UnfinishedIsShort(s[2 + Length(s)..]);
    }
  }

  /** One pass tells all there is exactly if nothing complete follows a frame
      that does not parse. */
  lemma {:induction false} DrainsIff(s: seq<Byte>)
    ensures Drain(s) == Exactly(s) <==> OnlyLastThrows(Frames(s))
    decreases |s|
  {
    hide ParseTcp;
    if HasFrame(s) {
      var rest := s[2 + Length(s)..];
      var first := s[2..2 + Length(s)];
      DrainsIff(rest);
      UnfinishedIsShort(rest);
      assert Frames(s) == [first] + Frames(rest);
      assert Frames(s)[1..] == Frames(rest);
      if ParseTcp(first).Throws? {
        assert Frames(s)[0] == first;
        assert Frames(rest) == [] <==> !HasFrame(rest);
      } else {
        OnlyLastThrowsTail(first, Frames(rest));
        if ParseTcp(first).Emits? {
          SameTail(ParseTcp(first).message, Drain(rest).pushed, Messages(Frames(rest)));
        }
      }
    }
  }

  lemma SameTail(m: Message, a: seq<Message>, b: seq<Message>)
    ensures [m] + a == [m] + b <==> a == b
  {
    assert ([m] + a)[1..] == a && ([m] + b)[1..] == b;
  }

  lemma OnlyLastThrowsTail(first: seq<Byte>, others: seq<seq<Byte>>)
    requires !ParseTcp(first).Throws?
    ensures OnlyLastThrows([first] + others) <==> OnlyLastThrows(others)
  {
    hide ParseTcp;
    var all := [first] + others;
    if OnlyLastThrows(all) {
      forall i: nat | i < |others| - 1 ensures !ParseTcp(others[i]).Throws? {
        assert all[i + 1] == others[i];
      }
    }
    if OnlyLastThrows(others) {
      forall i: nat | i < |all| - 1 ensures !ParseTcp(all[i]).Throws? {
        assert i > 0 ==> all[i] == others[i - 1];
      }
    }
  }

  lemma OnlyLastThrowsSplit(a: seq<seq<Byte>>, b: seq<seq<Byte>>)
    requires OnlyLastThrows(a + b)
    ensures OnlyLastThrows(a) && OnlyLastThrows(b)
  {
    hide ParseTcp;
    forall i: nat | i < |a| - 1 ensures !ParseTcp(a[i]).Throws? {
      assert (a + b)[i] == a[i];
    }
    forall i: nat | i < |b| - 1 ensures !ParseTcp(b[i]).Throws? {
      assert (a + b)[|a| + i] == b[i];
    }
  }

  lemma {:induction false} FedExactly(chunks: seq<seq<Byte>>)
    requires OnlyLastThrows(Frames(Concat(chunks)))
    ensures FeedAll(chunks) == Exactly(Concat(chunks))
  {
    hide ParseTcp, OnlyLastThrows, Drain;
    if chunks != [] {
      var before, chunk := chunks[..|chunks| - 1], chunks[|chunks| - 1];
      var s := Concat(before);
      var t := Unfinished(s) + chunk;
      FramesOfMore(s, chunk);
      OnlyLastThrowsSplit(Frames(s), Frames(t));
      FedExactly(before);
      DrainsIff(t);
      MessagesOfMore(Frames(s), Frames(t));
    } else {
      assert Frames([]) == [] && Unfinished([]) == [];
    }
  }

  /** The decoder's result is the same for every way of cutting the stream
      into chunks, and is exactly its complete frames, if and only if no
      complete frame follows one that does not parse. */
  lemma ChunkingDoesNotMatterIff(stream: seq<Byte>)
    ensures (forall chunks: seq<seq<Byte>> | Concat(chunks) == stream :: FeedAll(chunks) == Exactly(stream))
            <==> OnlyLastThrows(Frames(stream))
  {
    hide Drain, OnlyLastThrows, Frames, Messages, Unfinished;
    if OnlyLastThrows(Frames(stream)) {
      forall chunks: seq<seq<Byte>> | Concat(chunks) == stream ensures FeedAll(chunks) == Exactly(stream) {
        FedExactly(chunks);
      }
    } else {
      var whole := [stream];
      FedWhole(stream);
      DrainsIff(stream);
    }
  }

  lemma FedWhole(stream: seq<Byte>)
    ensures Concat([stream]) == stream && FeedAll([stream]) == Drain(stream)
  {
  }

  /** The finest cut: every byte a chunk of its own. */
  function Singly(stream: seq<Byte>): seq<seq<Byte>> {
    if stream == [] then [] else Singly(stream[..|stream| - 1]) + [[stream[|stream| - 1]]]
  }

  /** One byte completes one frame at most. */
  lemma OneMoreByte(s: seq<Byte>, b: Byte)
    requires !HasFrame(s)
    ensures |Frames(s + [b])| <= 1
  {
    var t := s + [b];
    if HasFrame(t) {
      assert |s| < 2 || Length(t) == Length(s) by {
        assert |s| >= 2 ==> t[..2] == s[..2];
      }
      assert t[2 + Length(t)..] == [];
    }
  }

  /** Fed byte by byte, every stream is told exactly: nothing waits behind a
      frame that does not parse. */
  lemma {:induction false} SinglyExactly(stream: seq<Byte>)
    ensures Concat(Singly(stream)) == stream && FeedAll(Singly(stream)) == Exactly(stream)
  {
    hide ParseTcp, Drain;
    if stream == [] {
      assert Frames([]) == [] && Unfinished([]) == [];
    } else {
      var front, b := stream[..|stream| - 1], stream[|stream| - 1];
      SinglyExactly(front);
      ConcatMore(Singly(front), [b]);
      assert front + [b] == stream;
      var t := Unfinished(front) + [b];
      UnfinishedIsShort(front);
      OneMoreByte(Unfinished(front), b);
      FramesOfMore(front, [b]);
      DrainsIff(t);
      MessagesOfMore(Frames(front), Frames(t));
      FedOne(Singly(front), [b]);
    }
  }

  lemma FedOne(chunks: seq<seq<Byte>>, chunk: seq<Byte>)
    ensures FeedAll(chunks + [chunk]) == Feed(FeedAll(chunks), chunk)
  {
    assert (chunks + [chunk])[..|chunks|] == chunks;
  }

  /** So two cuts of a stream can come to different results if and only if a
      complete frame follows one that does not parse. */
  lemma CutsAgreeIff(stream: seq<Byte>)
    ensures (forall a: seq<seq<Byte>>, b: seq<seq<Byte>> | Concat(a) == stream && Concat(b) == stream :: FeedAll(a) == FeedAll(b))
            <==> OnlyLastThrows(Frames(stream))
  {
    hide FeedAll, Concat, OnlyLastThrows, Exactly;
    ChunkingDoesNotMatterIff(stream);
    SinglyExactly(stream);
  }

  // ── With payloads that do not parse ───────────────────────────────

  /** The stream after its first `k` frames. */
  function Past(s: seq<Byte>, k: nat): seq<Byte>
    requires k <= |Frames(s)|
  {
    if k == 0 then s else Past(s[2 + Length(s)..], k - 1)
  }

  lemma {:induction false} FramesPast(s: seq<Byte>, k: nat)
    requires k <= |Frames(s)|
    ensures Frames(Past(s, k)) == Frames(s)[k..]
    decreases k
  {
    if k > 0 {
      FramesPast(s[2 + Length(s)..], k - 1);
      assert Frames(s)[k..] == Frames(s)[1..][k - 1..];
    }
  }

  lemma {:induction false} PastPast(s: seq<Byte>, k: nat, j: nat)
    requires k <= |Frames(s)| && j <= |Frames(s)| - k
    ensures j <= |Frames(Past(s, k))| && Past(Past(s, k), j) == Past(s, k + j)
    decreases k
  {
    FramesPast(s, k);
    if k > 0 {
      PastPast(s[2 + Length(s)..], k - 1, j);
    }
  }

  lemma {:induction false} PastMore(s: seq<Byte>, t: seq<Byte>, k: nat)
    requires k <= |Frames(s)|
    ensures k <= |Frames(s + t)| && Past(s + t, k) == Past(s, k) + t && Frames(s + t)[..k] == Frames(s)[..k]
    decreases k
  {
    FramesOfMore(s, t);
    if k > 0 {
      FirstOfMore(s, t);
      PastMore(s[2 + Length(s)..], t, k - 1);
    }
  }

  /** A decoder that has taken the first `k` frames of `s`. */
  predicate Took(h: Held, s: seq<Byte>, k: nat) {
    k <= |Frames(s)| && h == Held(Messages(Frames(s)[..k]), Past(s, k))
  }

  lemma Alone(payload: seq<Byte>)
    ensures Messages([payload]) == Told(payload)
  {
  }

  lemma {:induction false} DrainTakes(s: seq<Byte>)
    ensures exists k: nat :: Took(Drain(s), s, k)
    decreases |s|
  {
    hide ParseTcp;
    if !HasFrame(s) {
      assert Took(Drain(s), s, 0);
    } else {
      var first, rest := s[2..2 + Length(s)], s[2 + Length(s)..];
      assert Frames(s) == [first] + Frames(rest);
      if ParseTcp(first).Throws? {
        assert Frames(s)[..1] == [first];
        assert Past(s, 1) == Past(rest, 0);
        Alone(first);
        assert Took(Drain(s), s, 1);
      } else {
        DrainTakes(rest);
        var k: nat :| Took(Drain(rest), rest, k);
        assert Frames(s)[..k + 1] == [first] + Frames(rest)[..k];
        MessagesOfMore([first], Frames(rest)[..k]);
        Alone(first);
        assert Took(Drain(s), s, k + 1);
      }
    }
  }

  /** Whatever does not parse, and however the stream is cut: what has been
      told is the messages of its first frames, in order, and what is held is
      all of it after those. Nothing is lost, garbled or told twice. */
  lemma {:induction false} NothingIsLost(chunks: seq<seq<Byte>>)
    ensures exists k: nat :: Took(FeedAll(chunks), Concat(chunks), k)
  {
    hide Drain, Messages, ParseTcp;
    if chunks == [] {
      NoneTold();
      assert Took(FeedAll([]), Concat([]), 0);
    } else {
      var before, chunk := chunks[..|chunks| - 1], chunks[|chunks| - 1];
      NothingIsLost(before);
      var k: nat :| Took(FeedAll(before), Concat(before), k);
      DrainTakes(Past(Concat(before), k) + chunk);
      var j: nat :| Took(Drain(Past(Concat(before), k) + chunk), Past(Concat(before), k) + chunk, j);
      TookMore(FeedAll(before), Concat(before), k, chunk, j);
      assert Took(FeedAll(chunks), Concat(chunks), k + j);
    }
  }

  lemma NoneTold()
    ensures Frames([]) == [] && Messages([]) == [] && Frames([])[..0] == []
  {
  }

  lemma TookMore(h: Held, s: seq<Byte>, k: nat, chunk: seq<Byte>, j: nat)
    requires Took(h, s, k) && Took(Drain(h.rest + chunk), h.rest + chunk, j)
    ensures Took(Feed(h, chunk), s + chunk, k + j)
  {
    hide Drain, Messages, Frames, Past;
    PastMore(s, chunk, k);
    FramesPast(s + chunk, k);
    PastPast(s + chunk, k, j);
    assert Frames(s + chunk)[..k + j] == Frames(s)[..k] + Frames(Past(s + chunk, k))[..j];
    MessagesOfMore(Frames(s)[..k], Frames(Past(s + chunk, k))[..j]);
  }
}
