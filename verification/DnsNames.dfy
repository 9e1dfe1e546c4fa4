/** Names in DNS messages, sections 3.1 and 4.1.4 of RFC 1035, and the two
    replies a guest-network host answers with. Names are the Latin-1 bytes of
    their text. */
module DnsNames {
  import opened Buffers
  import opened Field

  type Text = seq<Byte>

  const DOT: Byte := 0x2E
  const MAX_JUMPS: nat := 8

  datatype Name = Name(text: Text, next: nat)

  // ── Labels ────────────────────────────────────────────────────────

  function Join(labels: seq<Text>): Text {
    if labels == [] then [] else if |labels| == 1 then labels[0] else labels[0] + [DOT] + Join(labels[1..])
  }

  /** A text cut at its dots. There is always at least one piece. */
  function Split(text: Text): (labels: seq<Text>)
    ensures labels != []
  {
    if text == [] then [[]]
    else
      var rest := Split(text[1..]);
      if text[0] == DOT then [[]] + rest else [[text[0]] + rest[0]] + rest[1..]
  }

  lemma {:induction false} JoinOfSplit(text: Text)
    ensures Join(Split(text)) == text && forall l :: l in Split(text) ==> DOT !in l
  {
    if text != [] {
      JoinOfSplit(text[1..]);
      var rest := Split(text[1..]);
      if |rest| > 1 {
        assert Join(rest) == rest[0] + [DOT] + Join(rest[1..]);
      }
    }
  }

  /** One label on the wire: its length in a byte, and its text. */
  function Wire(piece: Text): seq<Byte> { [(|piece| % 256) as Byte] + piece }

  function Wires(labels: seq<Text>): seq<Byte> {
    if labels == [] then [] else Wire(labels[0]) + Wires(labels[1..])
  }

  function EncodeDnsName(name: Text): seq<Byte> { Wires(Split(name)) + [0] }

  // ── What a name in a message says ─────────────────────────────────

  predicate IsPointer(b: Byte) { b >= 0xC0 }

  function PointerTo(high: Byte, low: Byte): nat
    requires IsPointer(high)
  {
    (high - 0xC0) * 256 + low
  }

  /** The labels of the name at `pos`, through at most `jumps` pointers. */
  function LabelsAt(msg: seq<Byte>, pos: nat, jumps: nat): Option<seq<Text>>
    decreases jumps, |msg| - pos
  {
    if pos >= |msg| then None
    else if msg[pos] == 0 then Some([])
    else if IsPointer(msg[pos]) then
      if pos + 1 >= |msg| || jumps == 0 then None else LabelsAt(msg, PointerTo(msg[pos], msg[pos + 1]), jumps - 1)
    else if pos + 1 + msg[pos] as int > |msg| then None
    else
      var end := pos + 1 + msg[pos] as int;
      var rest := LabelsAt(msg, end, jumps);
      if rest.None? then None else Some([msg[pos + 1..end]] + rest.value)
  }

  /** Where the name at `pos` ends: past its zero, or its first pointer. */
  function EndAt(msg: seq<Byte>, pos: nat): (end: nat)
    ensures end == 0 || pos < end <= |msg|
    decreases |msg| - pos
  {
    if pos >= |msg| then 0
    else if msg[pos] == 0 then pos + 1
    else if IsPointer(msg[pos]) then if pos + 1 >= |msg| then 0 else pos + 2
    else if pos + 1 + msg[pos] as int > |msg| then 0
    else EndAt(msg, pos + 1 + msg[pos] as int)
  }

  function NameAt(msg: seq<Byte>, pos: nat): Option<Name> {
    var labels := LabelsAt(msg, pos, MAX_JUMPS);
    if labels.None? then None else Some(Name(Join(labels.value), EndAt(msg, pos)))
  }

  /** Every name that parses ends past where it began, inside the message. */
  lemma {:induction false} NamesEnd(msg: seq<Byte>, pos: nat, jumps: nat)
    requires LabelsAt(msg, pos, jumps).Some?
    ensures pos < EndAt(msg, pos) <= |msg|
    decreases |msg| - pos
  {
    if pos < |msg| && msg[pos] != 0 && !IsPointer(msg[pos]) && pos + 1 + msg[pos] as int <= |msg| {
      NamesEnd(msg, pos + 1 + msg[pos] as int, jumps);
    }
  }

  /** `labels`, and what else was found. */
  function Prefixed(labels: seq<Text>, found: Option<seq<Text>>): Option<seq<Text>> {
    if found.None? then None else Some(labels + found.value)
  }

  lemma PrefixedTwice(a: seq<Text>, b: seq<Text>, found: Option<seq<Text>>)
    ensures Prefixed(a, Prefixed(b, found)) == Prefixed(a + b, found)
    ensures Prefixed([], found) == found
  {
    if found.Some? {
      Assoc(a, b, found.value);
      assert [] + found.value == found.value;
    }
  }

  lemma NextLabel(msg: seq<Byte>, pos: nat, jumps: nat)
    requires pos < |msg| && msg[pos] != 0 && !IsPointer(msg[pos]) && pos + 1 + msg[pos] as int <= |msg|
    ensures var end := pos + 1 + msg[pos] as int;
            LabelsAt(msg, pos, jumps) == Prefixed([msg[pos + 1..end]], LabelsAt(msg, end, jumps)) && EndAt(msg, pos) == EndAt(msg, end)
  {
  }

  /** The loop over position, end and jumps, against the definition. It reads
      in bounds, ends on every message, and moves on when it succeeds. */
  method ParseDnsName(msg: seq<Byte>, offset: nat) returns (r: Option<Name>)
    ensures r == NameAt(msg, offset)
    ensures r.Some? ==> offset < r.value.next <= |msg|
  {
    hide Join;
    var labels: seq<Text> := [];
    var pos: nat, next: Option<nat>, jumps: nat := offset, None, 0;
    ghost var found := LabelsAt(msg, offset, MAX_JUMPS);
    if found.Some? {
      NamesEnd(msg, offset, MAX_JUMPS);
    }
    PrefixedTwice([], [], found);
    while pos < |msg|
      invariant jumps <= MAX_JUMPS
      invariant found == Prefixed(labels, LabelsAt(msg, pos, MAX_JUMPS - jumps))
      invariant (if next.Some? then next.value else EndAt(msg, pos)) == EndAt(msg, offset)
      decreases MAX_JUMPS - jumps, |msg| - pos
    {
      var len := msg[pos];
      if len == 0 {
        assert labels + [] == labels;
        return Some(Name(Join(labels), if next.Some? then next.value else pos + 1));
      }
      if IsPointer(len) {
        if pos + 1 >= |msg| {
          return None;
        }
        if next.None? {
          next := Some(pos + 2);
        }
        if jumps == MAX_JUMPS {
          return None;
        }
        pos := PointerTo(len, msg[pos + 1]);
        jumps := jumps + 1;
        continue;
      }
      var end := pos + 1 + len as int;
      if end > |msg| {
        return None;
      }
      NextLabel(msg, pos, MAX_JUMPS - jumps);
      PrefixedTwice(labels, [msg[pos + 1..end]], LabelsAt(msg, end, MAX_JUMPS - jumps));
      labels := labels + [msg[pos + 1..end]];
      pos := end;
    }
    return None;
  }

  // ── Encoding, undone ──────────────────────────────────────────────

  /** The lengths that read back as lengths: not zero, which ends a name, and
      below 192, which begins a pointer. */
  predicate Sized(piece: Text) { 1 <= |piece| < 0xC0 }

  predicate AllSized(labels: seq<Text>) { forall l :: l in labels ==> Sized(l) }

  lemma FirstLabel(before: seq<Byte>, piece: Text, after: seq<Byte>, jumps: nat)
    requires Sized(piece)
    ensures var msg := before + Wire(piece) + after;
            var end := |before| + |Wire(piece)|;
            && LabelsAt(msg, |before|, jumps) == Prefixed([piece], LabelsAt(msg, end, jumps))
            && EndAt(msg, |before|) == EndAt(msg, end)
  {
    hide LabelsAt, EndAt, Prefixed;
    var msg := before + Wire(piece) + after;
    assert msg[|before|] == |piece|;
    assert msg[|before| + 1..|before| + 1 + |piece|] == piece;
    NextLabel(msg, |before|, jumps);
  }

  lemma Regroup(a: seq<Byte>, b: seq<Byte>, c: seq<Byte>, d: seq<Byte>)
    ensures a + (b + c) + d == (a + b) + c + d && a + (b + c) + d == a + b + (c + d)
  {
  }

  /** Labels on the wire read as themselves, and the name goes on after them. */
  lemma {:induction false} WiresRead(before: seq<Byte>, labels: seq<Text>, after: seq<Byte>, jumps: nat)
    requires AllSized(labels)
    ensures var msg := before + Wires(labels) + after;
            var end := |before| + |Wires(labels)|;
            LabelsAt(msg, |before|, jumps) == Prefixed(labels, LabelsAt(msg, end, jumps)) && EndAt(msg, |before|) == EndAt(msg, end)
    decreases |labels|
  {
    hide LabelsAt, EndAt, Prefixed, Wire;
    var msg := before + Wires(labels) + after;
    var end := |before| + |Wires(labels)|;
    if labels == [] {
      PrefixedTwice([], [], LabelsAt(msg, end, jumps));
    } else {
      var piece, rest := labels[0], labels[1..];
      Regroup(before, Wire(piece), Wires(rest), after);
      WiresRead(before + Wire(piece), rest, after, jumps);
      FirstLabel(before, piece, Wires(rest) + after, jumps);
      PrefixedTwice([piece], rest, LabelsAt(msg, end, jumps));
      assert [piece] + rest == labels;
    }
  }

  lemma ZeroEnds(before: seq<Byte>, after: seq<Byte>, jumps: nat)
    ensures LabelsAt(before + [0] + after, |before|, jumps) == Some([]) && EndAt(before + [0] + after, |before|) == |before| + 1
  {
  }

  lemma SizedLabels(before: seq<Byte>, name: Text, after: seq<Byte>, jumps: nat)
    requires AllSized(Split(name))
    ensures var msg := before + EncodeDnsName(name) + after;
            LabelsAt(msg, |before|, jumps) == Some(Split(name)) && EndAt(msg, |before|) == |before| + |EncodeDnsName(name)|
  {
    hide LabelsAt, EndAt, Split;
    var labels := Split(name);
    Regroup(before, Wires(labels), [0], after);
    WiresRead(before, labels, [0] + after, jumps);
    ZeroEnds(before + Wires(labels), after, jumps);
    assert labels + [] == labels;
  }

  lemma SizedRoundTrip(before: seq<Byte>, name: Text, after: seq<Byte>)
    requires AllSized(Split(name))
    ensures NameAt(before + EncodeDnsName(name) + after, |before|) == Some(Name(name, |before| + |EncodeDnsName(name)|))
  {
    hide LabelsAt, EndAt, Join, Split, EncodeDnsName;
    SizedLabels(before, name, after, MAX_JUMPS);
    JoinOfSplit(name);
  }

  // ── Which names do not survive ────────────────────────────────────

  lemma JoinFirst(piece: Text, rest: seq<Text>)
    ensures Join([piece] + rest) == if rest == [] then piece else piece + [DOT] + Join(rest)
  {
  }

  /** A label read short leaves a dot, or nothing, where the text goes on. */
  lemma ShortLabelShows(piece: Text, more: seq<Text>, whole: Text, rest: seq<Text>)
    requires |piece| < |whole| && DOT !in whole
    ensures Join([piece] + more) != Join([whole] + rest)
  {
    JoinFirst(piece, more);
    JoinFirst(whole, rest);
    var short, long := Join([piece] + more), Join([whole] + rest);
    assert long[|piece|] == whole[|piece|];
    if more != [] {
      assert short[|piece|] == DOT;
    }
  }

  lemma SameFirst(piece: Text, more: seq<Text>, rest: seq<Text>)
    requires rest != []
    ensures Join([piece] + more) == Join([piece] + rest) ==> more != [] && Join(more) == Join(rest)
  {
    hide Join;
    JoinFirst(piece, more);
    JoinFirst(piece, rest);
    if Join([piece] + more) == Join([piece] + rest) && more != [] {
      var n := |piece| + 1;
      assert (piece + [DOT] + Join(more))[n..] == Join(more) && (piece + [DOT] + Join(rest))[n..] == Join(rest);
    }
  }

  predicate ReadsAs(msg: seq<Byte>, at: nat, jumps: nat, labels: seq<Text>, end: nat) {
    var found := LabelsAt(msg, at, jumps);
    found.Some? && Join(found.value) == Join(labels) && EndAt(msg, at) == end
  }

  lemma BytesOfFirst(before: seq<Byte>, piece: Text, more: seq<Byte>, b: nat)
    requires b <= |piece|
    ensures var msg := before + (Wire(piece) + more);
            var at := |before|;
            && |msg| >= at + 1 + |piece| && msg[at] == |piece| % 256 && msg[at + 1..at + 1 + b] == piece[..b]
  {
  }

  lemma EndsEarly(msg: seq<Byte>, at: nat)
    requires at < |msg|
    ensures msg[at] == 0 ==> EndAt(msg, at) == at + 1
    ensures IsPointer(msg[at]) ==> EndAt(msg, at) <= at + 2
  {
  }

  /** A length of zero, or of 192 or more, in the length byte ends the name
      too early; a longer label has a length byte that says too little. */
  lemma UnsizedFirst(before: seq<Byte>, labels: seq<Text>, after: seq<Byte>, jumps: nat)
    requires labels != [] && !Sized(labels[0]) && DOT !in labels[0]
    ensures !ReadsAs(before + Wires(labels) + [0] + after, |before|, jumps, labels, |before| + |Wires(labels)| + 1)
  {
    hide Join, LabelsAt, EndAt, Wires;
    var msg := before + Wires(labels) + [0] + after;
    var piece, rest, at := labels[0], labels[1..], |before|;
    WiresFirst(labels);
    RegroupZero(before, Wire(piece), Wires(rest), after);
    BytesOfFirst(before, piece, Wires(rest) + ([0] + after), |piece| % 256);
    EndsEarly(msg, at);
    if msg[at] != 0 && !IsPointer(msg[at]) {
      var end := at + 1 + msg[at] as int;
      NextLabel(msg, at, jumps);
      var more := LabelsAt(msg, end, jumps);
      if more.Some? {
        ShortLabelShows(msg[at + 1..end], more.value, piece, rest);
        assert [piece] + rest == labels;
      }
    }
  }

  lemma WiresFirst(labels: seq<Text>)
    requires labels != []
    ensures Wires(labels) == Wire(labels[0]) + Wires(labels[1..]) && |Wires(labels)| >= 1 + |labels[0]|
  {
  }

  lemma RegroupZero(before: seq<Byte>, first: seq<Byte>, others: seq<Byte>, after: seq<Byte>)
    ensures before + (first + others) + [0] + after == (before + first) + others + [0] + after
    ensures before + (first + others) + [0] + after == before + first + (others + ([0] + after))
    ensures before + (first + others) + [0] + after == before + (first + (others + ([0] + after)))
  {
  }

  lemma SizedFirst(msg: seq<Byte>, at: nat, onward: nat, jumps: nat, piece: Text, rest: seq<Text>, end: nat)
    requires LabelsAt(msg, at, jumps) == Prefixed([piece], LabelsAt(msg, onward, jumps)) && EndAt(msg, at) == EndAt(msg, onward)
    requires rest != [] && !ReadsAs(msg, onward, jumps, rest, end)
    ensures !ReadsAs(msg, at, jumps, [piece] + rest, end)
  {
    hide Join, LabelsAt, EndAt;
    var found := LabelsAt(msg, onward, jumps);
    if found.Some? {
      SameFirst(piece, found.value, rest);
    }
  }

  lemma {:induction false} UnsizedFails(before: seq<Byte>, labels: seq<Text>, after: seq<Byte>, jumps: nat)
    requires !AllSized(labels) && forall l :: l in labels ==> DOT !in l
    ensures !ReadsAs(before + Wires(labels) + [0] + after, |before|, jumps, labels, |before| + |Wires(labels)| + 1)
    decreases |labels|
  {
    hide Join, LabelsAt, EndAt, Wire, ReadsAs, Wires;
    WiresFirst(labels);
    if !Sized(labels[0]) {
      UnsizedFirst(before, labels, after, jumps);
    } else {
      var piece, rest := labels[0], labels[1..];
      UnsizedFails(before + Wire(piece), rest, after, jumps);
      RegroupZero(before, Wire(piece), Wires(rest), after);
      FirstLabel(before, piece, Wires(rest) + ([0] + after), jumps);
      SizedFirst(before + Wires(labels) + [0] + after, |before|, |before| + |Wire(piece)|, jumps, piece, rest,
                 |before| + |Wires(labels)| + 1);
      assert [piece] + rest == labels;
    }
  }

  /** A name survives encoding and parsing, wherever it stands in a message, if
      and only if each of its labels has 1 to 191 bytes. */
  lemma RoundTripIff(before: seq<Byte>, name: Text, after: seq<Byte>)
    ensures NameAt(before + EncodeDnsName(name) + after, |before|) == Some(Name(name, |before| + |EncodeDnsName(name)|))
            <==> AllSized(Split(name))
  {
    hide Join, LabelsAt, EndAt, Split, AllSized;
    if AllSized(Split(name)) {
      SizedRoundTrip(before, name, after);
    } else {
      JoinOfSplit(name);
      Assoc(before, Wires(Split(name)), [0]);
      UnsizedFails(before, Split(name), after, MAX_JUMPS);
    }
  }

  // ── Compression ───────────────────────────────────────────────────

  /** Labels and then a pointer spell those labels, and then the name the
      pointer leads to; the name ends past the pointer. */
  lemma CompressedName(before: seq<Byte>, labels: seq<Text>, high: Byte, low: Byte, after: seq<Byte>)
    requires AllSized(labels) && IsPointer(high)
    ensures var msg := before + Wires(labels) + ([high, low] + after);
            var tail := LabelsAt(msg, PointerTo(high, low), MAX_JUMPS - 1);
            NameAt(msg, |before|) == if tail.None? then None
                                     else Some(Name(Join(labels + tail.value), |before| + |Wires(labels)| + 2))
  {
    hide Join;
    var msg := before + Wires(labels) + ([high, low] + after);
    var end := |before| + |Wires(labels)|;
    WiresRead(before, labels, [high, low] + after, MAX_JUMPS);
    assert msg[end] == high && msg[end + 1] == low;
  }

  // ── The two replies ───────────────────────────────────────────────

  const TYPE_PTR: nat := 12
  const HEADER: nat := 12

  predicate White(b: Byte) { b == 0x20 || 0x09 <= b <= 0x0D || b == 0xA0 }

  function TrimLeft(text: Text): Text { if text != [] && White(text[0]) then TrimLeft(text[1..]) else text }

  function TrimRight(text: Text): Text {
    if text != [] && White(text[|text| - 1]) then TrimRight(text[..|text| - 1]) else text
  }

  function Trim(text: Text): Text { TrimRight(TrimLeft(text)) }

  function LowerByte(b: Byte): Byte {
    if 0x41 <= b <= 0x5A || (0xC0 <= b <= 0xDE && b != 0xD7) then b + 0x20 else b
  }

  function Lower(text: Text): (lower: Text)
    ensures |lower| == |text|
  {
    seq(|text|, i requires 0 <= i < |text| => LowerByte(text[i]))
  }

  /** "DESKTOP-ABC123.local" says "DESKTOP-ABC123". */
  function ShortName(text: Text): Option<Text> {
    if text == [] then None
    else
      var short := Trim(Split(if text[|text| - 1] == DOT then text[..|text| - 1] else text)[0]);
      if short == [] then None else Some(short)
  }

  function Word(msg: seq<Byte>, at: nat): nat
    requires at + 2 <= |msg|
  {
    256 * msg[at] as int + msg[at + 1] as int
  }

  /** Past `count` questions: a name, a type and a class each. */
  function PastQuestions(msg: seq<Byte>, pos: nat, count: nat): Option<nat>
    decreases count
  {
    if count == 0 then Some(pos)
    else
      var q := NameAt(msg, pos);
      if q.None? then None else PastQuestions(msg, q.value.next + 4, count - 1)
  }

  /** The first pointer record among `count` that answers `query` with a name. */
  function FirstTarget(msg: seq<Byte>, pos: nat, count: nat, query: Text): Option<Text>
    decreases count
  {
    if count == 0 then None
    else
      var owner := NameAt(msg, pos);
      if owner.None? || owner.value.next + 10 > |msg| then None
      else
        var at := owner.value.next;
        var data := at + 10;
        var end := data + Word(msg, at + 8);
        if end > |msg| then None
        else
          var target := NameAt(msg, data);
          if Word(msg, at) == TYPE_PTR && Lower(owner.value.text) == Lower(query) && target.Some? && ShortName(target.value.text).Some?
          then ShortName(target.value.text)
          else FirstTarget(msg, end, count - 1, query)
  }

  function PtrResponse(msg: seq<Byte>, query: Text): Option<Text> {
    if |msg| < HEADER || Word(msg, 6) == 0 then None
    else
      var answers := PastQuestions(msg, HEADER, Word(msg, 4));
      if answers.None? then None else FirstTarget(msg, answers.value, Word(msg, 6), query)
  }

  method SkipQuestions(msg: seq<Byte>, count: nat) returns (r: Option<nat>)
    ensures r == PastQuestions(msg, HEADER, count)
  {
    var pos: nat := HEADER;
    for i := 0 to count
      invariant PastQuestions(msg, HEADER, count) == PastQuestions(msg, pos, count - i)
    {
      var q := ParseDnsName(msg, pos);
      if q.None? {
        return None;
      }
      pos := q.value.next + 4;
    }
    return Some(pos);
  }

  method ParsePtrResponse(msg: seq<Byte>, query: Text) returns (r: Option<Text>)
    ensures r == PtrResponse(msg, query)
  {
    hide NameAt, ShortName, Lower, PastQuestions;
    if |msg| < HEADER || Word(msg, 6) == 0 {
      return None;
    }
    var count := Word(msg, 6);
    var answers := SkipQuestions(msg, Word(msg, 4));
    if answers.None? {
      return None;
    }
    var pos: nat := answers.value;
    for i := 0 to count
      invariant PtrResponse(msg, query) == FirstTarget(msg, pos, count - i, query)
    {
      var owner := ParseDnsName(msg, pos);
      if owner.None? || owner.value.next + 10 > |msg| {
        return None;
      }
      var at := owner.value.next;
      var end := at + 10 + Word(msg, at + 8);
      if end > |msg| {
        return None;
      }
      if Word(msg, at) == TYPE_PTR && Lower(owner.value.text) == Lower(query) {
        var target := ParseDnsName(msg, at + 10);
        if target.Some? && ShortName(target.value.text).Some? {
          return ShortName(target.value.text);
        }
      }
      pos := end;
    }
    return None;
  }

  /** The record a host answers with: it points back to the question's name,
      and names the target. `rest` is its class and time to live. */
  function Record(rest: seq<Byte>, target: Text): seq<Byte> {
    [0xC0, 0x0C] + ([0, 12] + rest + Bytes(2, |EncodeDnsName(target)|) + EncodeDnsName(target))
  }

  function Reply(header: seq<Byte>, query: Text, rest: seq<Byte>, target: Text): seq<Byte> {
    header + EncodeDnsName(query) + ([0, 12, 0, 1] + Record(rest, target))
  }

  lemma WordOfNumber(n: nat)
    requires n < 0x1_0000
    ensures |Bytes(2, n)| == 2 && 256 * Bytes(2, n)[0] as int + Bytes(2, n)[1] as int == n
  {
  }

  /** The pointer at the head of the record reads as the question's name. */
  lemma OwnerOfReply(header: seq<Byte>, query: Text, rest: seq<Byte>, target: Text)
    requires |header| == HEADER && AllSized(Split(query))
    ensures var p := HEADER + |EncodeDnsName(query)| + 4;
            NameAt(Reply(header, query, rest, target), p) == Some(Name(query, p + 2))
  {
    hide LabelsAt, EndAt, Join, Split, EncodeDnsName, Wires;
    var msg := Reply(header, query, rest, target);
    var before := header + EncodeDnsName(query) + [0, 12, 0, 1];
    var data := [0, 12] + rest + Bytes(2, |EncodeDnsName(target)|) + EncodeDnsName(target);
    assert msg == before + [] + ([0xC0, 0x0C] + data);
    assert Wires([]) == [] by {
      NoWires();
    }
    CompressedName(before, [], 0xC0, 0x0C, data);
    SizedLabels(header, query, [0, 12, 0, 1] + Record(rest, target), MAX_JUMPS - 1);
    JoinOfSplit(query);
    assert [] + Split(query) == Split(query);
  }

  lemma NoWires()
    ensures Wires([]) == []
  {
  }

  lemma FieldsOfReply(header: seq<Byte>, query: Text, rest: seq<Byte>, target: Text)
    requires |header| == HEADER && |rest| == 6 && |EncodeDnsName(target)| < 0x1_0000
    ensures var msg := Reply(header, query, rest, target);
            var at := HEADER + |EncodeDnsName(query)| + 6;
            && |msg| == at + 10 + |EncodeDnsName(target)|
            && Word(msg, at) == TYPE_PTR && Word(msg, at + 8) == |EncodeDnsName(target)|
  {
    hide EncodeDnsName, Bytes;
    var n := |EncodeDnsName(target)|;
    WordOfNumber(n);
    var length := Bytes(2, n);
    var msg := Reply(header, query, rest, target);
    var at := HEADER + |EncodeDnsName(query)| + 6;
    assert msg[at] == 0 && msg[at + 1] == 12;
    assert msg[at + 8] == length[0] && msg[at + 9] == length[1];
  }

  lemma TargetOfReply(header: seq<Byte>, query: Text, rest: seq<Byte>, target: Text)
    requires |header| == HEADER && |rest| == 6 && AllSized(Split(target))
    ensures var data := HEADER + |EncodeDnsName(query)| + 16;
            NameAt(Reply(header, query, rest, target), data) == Some(Name(target, data + |EncodeDnsName(target)|))
  {
    hide NameAt, Split, EncodeDnsName, Bytes;
    var msg := Reply(header, query, rest, target);
    var before := header + EncodeDnsName(query) + ([0, 12, 0, 1] + ([0xC0, 0x0C] + ([0, 12] + rest + Bytes(2, |EncodeDnsName(target)|))));
    assert msg == before + EncodeDnsName(target) + [];
    SizedRoundTrip(before, target, []);
  }

  /** Asked for a name, a host that answers with one question, one record and
      its name compressed is understood: what comes out is its short name. */
  lemma ReplyIsUnderstood(header: seq<Byte>, query: Text, rest: seq<Byte>, target: Text)
    requires |header| == HEADER && Word(header, 4) == 1 && Word(header, 6) == 1 && |rest| == 6
    requires AllSized(Split(query)) && AllSized(Split(target)) && |EncodeDnsName(target)| < 0x1_0000
    ensures PtrResponse(Reply(header, query, rest, target), query) == ShortName(target)
  {
    hide NameAt, Split, EncodeDnsName, ShortName, Lower, Record;
    var msg := Reply(header, query, rest, target);
    assert msg[..HEADER] == header && Word(msg, 4) == 1 && Word(msg, 6) == 1;
    SizedRoundTrip(header, query, [0, 12, 0, 1] + Record(rest, target));
    var p := HEADER + |EncodeDnsName(query)| + 4;
    assert PastQuestions(msg, p, 0) == Some(p) && PastQuestions(msg, HEADER, 1) == Some(p);
    OwnerOfReply(header, query, rest, target);
    FieldsOfReply(header, query, rest, target);
    TargetOfReply(header, query, rest, target);
    assert FirstTarget(msg, |msg|, 0, query) == None;
  }

  // ── The table of names a Windows machine answers with ─────────────

  const NAME_ENTRY: nat := 18

  predicate Printable(b: Byte) { 0x20 <= b <= 0x7E }

  /** The entry at `at` names the machine itself: the suffix of a workstation,
      not a group, and a name that can be shown. */
  predicate Workstation(msg: seq<Byte>, at: nat)
    requires at + NAME_ENTRY <= |msg|
  {
    var name := Trim(msg[at..at + 15]);
    && msg[at + 15] == 0 && msg[at + 16] < 0x80
    && name != [] && name != [0x2A] && forall b :: b in name ==> Printable(b)
  }

  /** Where the table begins, and how many entries it claims. */
  function NameTable(msg: seq<Byte>): Option<(nat, nat)> {
    if |msg| < HEADER || Word(msg, 6) == 0 then None
    else
      var pos := PastQuestions(msg, HEADER, Word(msg, 4));
      if pos.None? then None
      else
        var owner := NameAt(msg, pos.value);
        if owner.None? || owner.value.next + 10 >= |msg| then None
        else Some((owner.value.next + 11, msg[owner.value.next + 10] as int))
  }

  /** Entry `k` of the table is there, whole. */
  predicate HasEntry(msg: seq<Byte>, table: (nat, nat), k: nat) {
    k < table.1 && table.0 + NAME_ENTRY * (k + 1) <= |msg|
  }

  function Entry(table: (nat, nat), k: nat): nat { table.0 + NAME_ENTRY * k }

  method ParseNodeStatusResponse(msg: seq<Byte>) returns (r: Option<Text>)
    ensures NameTable(msg).None? ==> r.None?
    ensures r.None? && NameTable(msg).Some? ==>
              forall k: nat | HasEntry(msg, NameTable(msg).value, k) :: !Workstation(msg, Entry(NameTable(msg).value, k))
    ensures r.Some? ==> NameTable(msg).Some?
    ensures r.Some? ==>
              var table := NameTable(msg).value;
              exists k: nat ::
                && HasEntry(msg, table, k) && Workstation(msg, Entry(table, k))
                && r.value == Trim(msg[Entry(table, k)..Entry(table, k) + 15])
                && forall j: nat | j < k :: !Workstation(msg, Entry(table, j))
  {
    hide PastQuestions, NameAt, Workstation;
    if |msg| < HEADER || Word(msg, 6) == 0 {
      return None;
    }
    var pos := SkipQuestions(msg, Word(msg, 4));
    if pos.None? {
      return None;
    }
    var owner := ParseDnsName(msg, pos.value);
    if owner.None? || owner.value.next + 10 >= |msg| {
      return None;
    }
    var names := msg[owner.value.next + 10] as int;
    var table := (owner.value.next + 11, names);
    var entry := table.0;
    var i := 0;
    while i < names
      invariant 0 <= i <= names && entry == Entry(table, i)
      invariant forall j: nat | j < i :: HasEntry(msg, table, j) && !Workstation(msg, Entry(table, j))
    {
      if entry + NAME_ENTRY > |msg| {
        break;
      }
      assert HasEntry(msg, table, i);
      var named := IsWorkstation(msg, entry);
      if named {
        return Some(Trim(msg[entry..entry + 15]));
      }
      i := i + 1;
      entry := entry + NAME_ENTRY;
    }
    return None;
  }

  method IsWorkstation(msg: seq<Byte>, entry: nat) returns (named: bool)
    requires entry + NAME_ENTRY <= |msg|
    ensures named == Workstation(msg, entry)
  {
    if msg[entry + 15] != 0 || msg[entry + 16] >= 0x80 {
      return false;
    }
    var name := Trim(msg[entry..entry + 15]);
    if name == [] || name == [0x2A] {
      return false;
    }
    for i := 0 to |name|
      invariant forall j: nat | j < i :: Printable(name[j])
    {
      if !Printable(name[i]) {
        assert name[i] in name;
        return false;
      }
    }
    return true;
  }
}
