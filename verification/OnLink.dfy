/** The networks a host is plugged into, as text: dotted IPv4, the short form
    of IPv6 (section 2.2 of RFC 4291), and the string two equal networks
    share. */
module OnLink {
  import opened Field
  import opened Buffers
  import opened PrefixMask

  // ── Digits and words ──────────────────────────────────────────────

  type Radix = r: nat | r == 10 || r == 16 witness 16

  function High(value: nat, radix: Radix): nat { if radix == 10 then value / 10 else value / 16 }

  function Low(value: nat, radix: Radix): (d: nat)
    ensures d < radix
  {
    if radix == 10 then value % 10 else value % 16
  }

  function Times(radix: Radix, value: nat): nat { if radix == 10 then 10 * value else 16 * value }

  function Digit(d: nat): (c: char)
    requires d < 16
  {
    if d < 10 then '0' + d as char else 'a' + (d - 10) as char
  }

  function DigitValue(c: char): Option<nat> {
    if '0' <= c <= '9' then Some(c as int - '0' as int)
    else if 'a' <= c <= 'f' then Some(c as int - 'a' as int + 10)
    else if 'A' <= c <= 'F' then Some(c as int - 'A' as int + 10)
    else None
  }

  predicate IsDigitOf(c: char, radix: Radix) { DigitValue(c).Some? && DigitValue(c).value < radix }

  /** `value.toString(radix)`. */
  function Spell(value: nat, radix: Radix): (text: string)
    ensures text != ""
  {
    if value < radix then [Digit(value)] else Spell(High(value, radix), radix) + [Digit(Low(value, radix))]
  }

  /** `parseInt`: what the digits at the start of `text` spell, `seen` being
      what those before it did. */
  function Parse(text: string, radix: Radix, seen: nat): nat {
    if text == "" || !IsDigitOf(text[0], radix) then seen
    else Parse(text[1..], radix, Times(radix, seen) + DigitValue(text[0]).value)
  }

  ghost predicate AllDigits(text: string, radix: Radix) {
    forall i: nat | i < |text| :: IsDigitOf(text[i], radix)
  }

  lemma {:induction false} ParseMore(text: string, c: char, radix: Radix, seen: nat)
    requires AllDigits(text, radix) && IsDigitOf(c, radix)
    ensures Parse(text + [c], radix, seen) == Times(radix, Parse(text, radix, seen)) + DigitValue(c).value
  {
    if text != "" {
      assert (text + [c])[1..] == text[1..] + [c];
      ParseMore(text[1..], c, radix, Times(radix, seen) + DigitValue(text[0]).value);
    } else {
      assert (text + [c])[1..] == "";
    }
  }

  lemma DigitIs(d: nat)
    requires d < 16
    ensures DigitValue(Digit(d)) == Some(d)
  {
  }

  lemma {:induction false} SpellingParses(value: nat, radix: Radix)
    ensures AllDigits(Spell(value, radix), radix) && Parse(Spell(value, radix), radix, 0) == value
  {
    hide Digit, DigitValue;
    DigitIs(Low(value, radix));
    if value < radix {
      assert [Digit(value)][1..] == "";
      assert Low(value, radix) == value;
    } else {
      SpellingParses(High(value, radix), radix);
      ParseMore(Spell(High(value, radix), radix), Digit(Low(value, radix)), radix, 0);
    }
  }

  /** No number is written with a zero in front, but for zero itself. */
  lemma {:induction false} NoLeadingZero(value: nat, radix: Radix)
    ensures Spell(value, radix)[0] == '0' <==> value == 0
    ensures value == 0 ==> Spell(value, radix) == "0"
  {
    if value >= radix {
      NoLeadingZero(High(value, radix), radix);
      assert High(value, radix) > 0;
    }
  }

  // ── Joined and split ──────────────────────────────────────────────

  function Joined(words: seq<nat>, radix: Radix, sep: char): string
    decreases |words|, 0
  {
    if words == [] then "" else Spell(words[0], radix) + Tail(words[1..], radix, sep)
  }

  /** The words, each with the separator in front. */
  function Tail(words: seq<nat>, radix: Radix, sep: char): string
    decreases |words|, 1
  {
    if words == [] then "" else [sep] + Joined(words, radix, sep)
  }

  function Split(text: string, sep: char): (parts: seq<string>)
    ensures parts != []
  {
    if text == "" then [""]
    else if text[0] == sep then [""] + Split(text[1..], sep)
    else
      var rest := Split(text[1..], sep);
      [[text[0]] + rest[0]] + rest[1..]
  }

  lemma {:induction false} SplitWord(word: string, rest: string, sep: char)
    requires sep !in word
    ensures Split(word + rest, sep) == [word + Split(rest, sep)[0]] + Split(rest, sep)[1..]
  {
    if word == "" {
      var parts := Split(rest, sep);
      assert word + rest == rest && word + parts[0] == parts[0] && parts == [parts[0]] + parts[1..];
    } else {
      assert (word + rest)[1..] == word[1..] + rest;
      SplitWord(word[1..], rest, sep);
      assert [word[0]] + (word[1..] + Split(rest, sep)[0]) == word + Split(rest, sep)[0];
    }
  }

  function Words(parts: seq<string>, radix: Radix): (words: seq<nat>)
    ensures |words| == |parts|
  {
    if parts == [] then [] else [Parse(parts[0], radix, 0)] + Words(parts[1..], radix)
  }

  lemma NoSeparator(value: nat, radix: Radix, sep: char)
    requires DigitValue(sep).None?
    ensures sep !in Spell(value, radix)
  {
  }

  /** Splitting undoes joining. */
  lemma {:induction false} SplitUndoes(words: seq<nat>, radix: Radix, sep: char)
    requires DigitValue(sep).None? && words != []
    ensures Words(Split(Joined(words, radix, sep), sep), radix) == words
  {
    hide DigitValue, Parse, Spell;
    var word, rest := Spell(words[0], radix), words[1..];
    NoSeparator(words[0], radix, sep);
    SplitWord(word, Tail(rest, radix, sep), sep);
    SpellingParses(words[0], radix);
    if rest == [] {
      assert Split("", sep) == [""];
      assert word + "" == word;
    } else {
      SplitUndoes(rest, radix, sep);
      SplitTail(rest, radix, sep);
      assert word + "" == word;
    }
  }

  lemma SplitTail(words: seq<nat>, radix: Radix, sep: char)
    requires words != []
    ensures Split(Tail(words, radix, sep), sep) == [""] + Split(Joined(words, radix, sep), sep)
  {
  }

  // ── The short form ────────────────────────────────────────────────

  /** How often ":0" is repeated at the start of `text`. */
  function ZeroPairs(text: string): (n: nat)
    ensures 2 * n <= |text|
  {
    if |text| >= 2 && text[0] == ':' && text[1] == '0' then 1 + ZeroPairs(text[2..]) else 0
  }

  /** Where the pattern "0, then :0 at least once, then a colon or the end"
      stops matching, from the start of `text`. Repeats are taken greedily;
      if what follows them is neither, one is given back. */
  function MatchEnd(text: string): (end: Option<nat>)
    ensures end.Some? ==> 0 < end.value <= |text|
  {
    if text == "" || text[0] != '0' then None
    else
      var n := ZeroPairs(text[1..]);
      var stop := 1 + 2 * n;
      if n == 0 then None
      else if stop == |text| then Some(stop)
      else if text[stop] == ':' then Some(stop + 1)
      else if n > 1 then Some(stop - 1)
      else None
  }

  /** The first match, with the colon before it unless it is at the start of
      the whole text, is replaced by two colons. */
  function Shorten(text: string, start: bool): string {
    if start && MatchEnd(text).Some? then "::" + text[MatchEnd(text).value..]
    else if text == "" then ""
    else if text[0] == ':' && MatchEnd(text[1..]).Some? then "::" + text[1..][MatchEnd(text[1..]).value..]
    else [text[0]] + Shorten(text[1..], false)
  }

  function Hex(words: seq<nat>): string { Joined(words, 16, ':') }

  function ZerosFirst(words: seq<nat>): (n: nat)
    ensures n <= |words|
    ensures forall i: nat | i < n :: words[i] == 0
  {
    if words == [] || words[0] != 0 then 0 else 1 + ZerosFirst(words[1..])
  }

  /** Where the first two zero words in a row are. */
  function FirstRun(words: seq<nat>): (at: Option<nat>)
    ensures at.Some? ==> at.value + 2 <= |words| && ZerosFirst(words[at.value..]) >= 2
  {
    if ZerosFirst(words) >= 2 then
      assert words[0..] == words;
      Some(0)
    else if words == [] then None
    else
      var later := FirstRun(words[1..]);
      if later.None? then None
      else
        assert words[1..][later.value..] == words[later.value + 1..];
        Some(later.value + 1)
  }

  lemma {:induction false} ZeroPairsOf(words: seq<nat>)
    ensures var n := ZerosFirst(words);
      ZeroPairs(Tail(words, 16, ':')) == n && Tail(words, 16, ':')[2 * n..] == Tail(words[n..], 16, ':')
  {
    if words != [] {
      var text, rest := Tail(words, 16, ':'), Tail(words[1..], 16, ':');
      NoLeadingZero(words[0], 16);
      var word := Spell(words[0], 16);
      Assoc([':'], word, rest);
      assert Joined(words, 16, ':') == word + rest;
      assert text == ([':'] + word) + rest;
      if words[0] == 0 {
        assert text[2..] == rest;
        ZeroPairsOf(words[1..]);
        var n := ZerosFirst(words[1..]);
        assert text[2 * (n + 1)..] == rest[2 * n..];
        assert words[1..][n..] == words[n + 1..];
      } else {
        assert text[1] == word[0];
      }
    }
  }

  lemma MatchEndIs(rest: string, n: nat, left: string)
    requires ZeroPairs(rest) == n && rest[2 * n..] == left && (left != "" ==> left[0] == ':')
    ensures var text := "0" + rest; var end := MatchEnd(text);
      && (end.Some? <==> n > 0) && (end.Some? ==> text[end.value..] == if left == "" then "" else left[1..])
  {
  }

  /** Against the spelled words, the pattern matches a run of at least two zero
      words, and what is left is the words after it. */
  lemma MatchOf(words: seq<nat>)
    ensures var n, end := ZerosFirst(words), MatchEnd(Hex(words));
      && (end.Some? <==> n >= 2) && (end.Some? ==> Hex(words)[end.value..] == Hex(words[n..]))
  {
    hide Spell, ZeroPairs;
    if words == [] {
    } else if words[0] == 0 {
      NoLeadingZero(words[0], 16);
      var rest, n := Tail(words[1..], 16, ':'), ZerosFirst(words[1..]);
      ZeroPairsOf(words[1..]);
      assert words[1..][n..] == words[n + 1..];
      MatchEndIs(rest, n, Tail(words[n + 1..], 16, ':'));
    } else {
      NoLeadingZero(words[0], 16);
      assert Hex(words)[0] == Spell(words[0], 16)[0];
    }
  }

  lemma {:induction false} ShortenWord(word: string, rest: string)
    requires ':' !in word
    ensures Shorten(word + rest, false) == word + Shorten(rest, false)
  {
    if word == "" {
      assert word + rest == rest && word + Shorten(rest, false) == Shorten(rest, false);
    } else {
      assert (word + rest)[1..] == word[1..] + rest;
      ShortenWord(word[1..], rest);
      assert [word[0]] + (word[1..] + Shorten(rest, false)) == word + Shorten(rest, false);
    }
  }

  /** What the words come to once shortened, `before` being what is written in
      front of each word but the first. */
  function ShortTail(words: seq<nat>): string {
    if words == [] then ""
    else if ZerosFirst(words) >= 2 then "::" + Hex(words[ZerosFirst(words)..])
    else ":" + Spell(words[0], 16) + ShortTail(words[1..])
  }

  lemma {:induction false} ShortenTail(words: seq<nat>)
    ensures Shorten(Tail(words, 16, ':'), false) == ShortTail(words)
  {
    hide MatchEnd, Spell;
    if words != [] {
      var text, word, rest := Tail(words, 16, ':'), Spell(words[0], 16), Tail(words[1..], 16, ':');
      assert text[1..] == Hex(words);
      MatchOf(words);
      if ZerosFirst(words) < 2 {
        NoSeparator(words[0], 16, ':');
        ShortenWord(word, rest);
        ShortenTail(words[1..]);
        assert [':'] + (word + ShortTail(words[1..])) == ":" + word + ShortTail(words[1..]);
      }
    }
  }

  lemma ShortenHex(words: seq<nat>)
    ensures Shorten(Hex(words), true) == (
      if words == [] then ""
      else if ZerosFirst(words) >= 2 then "::" + Hex(words[ZerosFirst(words)..])
      else Spell(words[0], 16) + ShortTail(words[1..]))
  {
    hide MatchEnd, Spell;
    MatchOf(words);
    if words != [] && ZerosFirst(words) < 2 {
      var word, rest := Spell(words[0], 16), Tail(words[1..], 16, ':');
      NoSeparator(words[0], 16, ':');
      NotAtStart(word, rest);
      ShortenWord(word, rest);
      ShortenTail(words[1..]);
    }
  }

  lemma NotAtStart(word: string, rest: string)
    requires word != "" && ':' !in word && MatchEnd(word + rest).None?
    ensures Shorten(word + rest, true) == Shorten(word + rest, false)
  {
  }

  // ── Reading it back ───────────────────────────────────────────────

  /** What comes before the first two colons in a row, and what after. */
  function UntilDouble(text: string): string {
    if text == "" || (|text| > 1 && text[0] == ':' && text[1] == ':') then "" else [text[0]] + UntilDouble(text[1..])
  }

  function AfterDouble(text: string): string {
    if text == "" then ""
    else if |text| > 1 && text[0] == ':' && text[1] == ':' then text[2..]
    else AfterDouble(text[1..])
  }

  /** An address may end in the zone it is valid in. */
  function BeforeZone(text: string): string {
    if text == "" || text[0] == '%' then "" else [text[0]] + BeforeZone(text[1..])
  }

  function WordsIn(text: string): seq<nat> {
    if text == "" then [] else Words(Split(text, ':'), 16)
  }

  function Zeros(n: nat): (words: seq<nat>)
    ensures |words| == n
  {
    seq(n, i => 0)
  }

  /** The eight words of an address; none if it holds more than eight, which
      the runtime refuses. */
  function WordsOf(address: string): Option<seq<nat>> {
    var text := BeforeZone(address);
    var head, tail := WordsIn(UntilDouble(text)), WordsIn(UntilDouble(AfterDouble(text)));
    if |head| + |tail| > 8 then None else Some(head + Zeros(8 - |head| - |tail|) + tail)
  }

  function ShortText(words: seq<nat>): string { Shorten(Hex(words), true) }

  lemma {:induction false} UntilWord(word: string, rest: string)
    requires ':' !in word
    ensures UntilDouble(word + rest) == word + UntilDouble(rest)
    ensures AfterDouble(word + rest) == AfterDouble(rest)
  {
    if word == "" {
      assert word + rest == rest && word + UntilDouble(rest) == UntilDouble(rest);
    } else {
      assert (word + rest)[1..] == word[1..] + rest && (word + rest)[0] == word[0];
      UntilWord(word[1..], rest);
      assert [word[0]] + (word[1..] + UntilDouble(rest)) == word + UntilDouble(rest);
    }
  }

  lemma UntilColon(word: string, rest: string)
    requires word != "" && ':' !in word
    ensures UntilDouble(":" + word + rest) == ":" + word + UntilDouble(rest)
    ensures AfterDouble(":" + word + rest) == AfterDouble(rest)
  {
    UntilWord(word, rest);
    var text := ":" + word + rest;
    assert text[1..] == word + rest && text[1] == word[0];
    assert [':'] + (word + UntilDouble(rest)) == ":" + word + UntilDouble(rest);
  }

  /** The words before the two colons, and the words after. */
  lemma {:induction false} ShortTailReads(words: seq<nat>)
    ensures UntilDouble(ShortTail(words)) == Tail(HeadOf(words), 16, ':')
    ensures AfterDouble(ShortTail(words)) == Hex(LastOf(words))
  {
    hide Spell;
    if words == [] {
    } else if ZerosFirst(words) >= 2 {
      var text, left := ShortTail(words), Hex(words[ZerosFirst(words)..]);
      assert text == "::" + left && text[2..] == left;
    } else {
      var word, rest := Spell(words[0], 16), words[1..];
      NoSeparator(words[0], 16, ':');
      UntilColon(word, ShortTail(rest));
      ShortTailReads(rest);
      var head := HeadOf(rest);
      assert HeadOf(words) == [words[0]] + head && ([words[0]] + head)[1..] == head;
      Assoc([':'], word, Tail(head, 16, ':'));
    }
  }

  /** The words in front of the first run of zeros, and those behind it. */
  function HeadOf(words: seq<nat>): seq<nat> {
    if words == [] || ZerosFirst(words) >= 2 then [] else [words[0]] + HeadOf(words[1..])
  }

  function LastOf(words: seq<nat>): seq<nat> {
    if words == [] then [] else if ZerosFirst(words) >= 2 then words[ZerosFirst(words)..] else LastOf(words[1..])
  }

  lemma ZerosThenRest(words: seq<nat>)
    ensures words == Zeros(ZerosFirst(words)) + words[ZerosFirst(words)..]
  {
  }

  lemma {:induction false} HeadAndLast(words: seq<nat>)
    ensures |HeadOf(words)| + |LastOf(words)| <= |words|
    ensures words == HeadOf(words) + Zeros(|words| - |HeadOf(words)| - |LastOf(words)|) + LastOf(words)
  {
    hide Zeros;
    if words == [] {
    } else if ZerosFirst(words) >= 2 {
      var n := ZerosFirst(words);
      ZerosThenRest(words);
      assert [] + Zeros(n) == Zeros(n);
    } else {
      HeadAndLast(words[1..]);
      var head, last := HeadOf(words[1..]), LastOf(words[1..]);
      assert words == [words[0]] + words[1..];
      var zeros := Zeros(|words| - 1 - |head| - |last|);
      Assoc([words[0]], head + zeros, last);
      Assoc([words[0]], head, zeros);
    }
  }

  lemma ShortTextReads(words: seq<nat>)
    ensures UntilDouble(ShortText(words)) == Hex(HeadOf(words))
    ensures AfterDouble(ShortText(words)) == Hex(LastOf(words))
  {
    hide Spell, Shorten;
    ShortenHex(words);
    if words == [] {
    } else if ZerosFirst(words) >= 2 {
      var text, left := ShortText(words), Hex(words[ZerosFirst(words)..]);
      assert text == "::" + left && text[2..] == left;
    } else {
      var word, rest := Spell(words[0], 16), words[1..];
      NoSeparator(words[0], 16, ':');
      UntilWord(word, ShortTail(rest));
      ShortTailReads(rest);
      assert HeadOf(words)[1..] == HeadOf(rest);
    }
  }

  lemma HexReads(words: seq<nat>)
    ensures WordsIn(Hex(words)) == words
  {
    hide Split, Words, Spell;
    if words != [] {
      SplitUndoes(words, 16, ':');
      assert Hex(words) != "";
    }
  }

  lemma {:induction false} OneDouble(words: seq<nat>)
    ensures UntilDouble(Tail(words, 16, ':')) == Tail(words, 16, ':')
  {
    hide Spell;
    if words != [] {
      var word, rest := Spell(words[0], 16), words[1..];
      NoSeparator(words[0], 16, ':');
      UntilColon(word, Tail(rest, 16, ':'));
      OneDouble(rest);
      assert Joined(words, 16, ':') == word + Tail(rest, 16, ':');
      Assoc([':'], word, Tail(rest, 16, ':'));
    }
  }

  lemma UntilHex(words: seq<nat>)
    ensures UntilDouble(Hex(words)) == Hex(words)
  {
    hide Spell;
    if words != [] {
      var word, rest := Spell(words[0], 16), words[1..];
      NoSeparator(words[0], 16, ':');
      UntilWord(word, Tail(rest, 16, ':'));
      OneDouble(rest);
    }
  }

  // ── The characters used ───────────────────────────────────────────

  /** Digits and the separator, and nothing else. */
  predicate Plain(text: string, radix: Radix, sep: char) {
    forall i: nat | i < |text| :: text[i] == sep || IsDigitOf(text[i], radix)
  }

  lemma PlainJoin(a: string, b: string, radix: Radix, sep: char)
    requires Plain(a, radix, sep) && Plain(b, radix, sep)
    ensures Plain(a + b, radix, sep)
  {
  }

  lemma {:induction false} JoinedPlain(words: seq<nat>, radix: Radix, sep: char)
    ensures Plain(Joined(words, radix, sep), radix, sep)
    decreases |words|
  {
    hide IsDigitOf, Spell, Plain;
    if words == [] {
      NothingPlain(radix, sep);
    } else {
      var word, rest := Spell(words[0], radix), words[1..];
      SpellingPlain(words[0], radix, sep);
      NothingPlain(radix, sep);
      if rest != [] {
        JoinedPlain(rest, radix, sep);
        PlainJoin([sep], Joined(rest, radix, sep), radix, sep);
      }
      PlainJoin(word, Tail(rest, radix, sep), radix, sep);
    }
  }

  lemma NothingPlain(radix: Radix, sep: char)
    ensures Plain("", radix, sep) && Plain([sep], radix, sep)
  {
  }

  lemma SpellingPlain(value: nat, radix: Radix, sep: char)
    ensures Plain(Spell(value, radix), radix, sep)
  {
  }

  /** Shortening leaves no character out of the plain ones. */
  lemma {:induction false} ShortPlain(text: string, start: bool)
    requires Plain(text, 16, ':')
    ensures Plain(Shorten(text, start), 16, ':')
  {
    hide IsDigitOf, MatchEnd;
    if start && MatchEnd(text).Some? {
    } else if text == "" {
    } else if text[0] == ':' && MatchEnd(text[1..]).Some? {
    } else {
      ShortPlain(text[1..], false);
    }
  }

  lemma {:induction false} NoZone(text: string)
    requires Plain(text, 16, ':')
    ensures BeforeZone(text) == text
  {
    if text != "" {
      NoZone(text[1..]);
    }
  }

  /** The short text of an address reads back as the address: for all eight
      words, wherever its zeros are. */
  lemma TextUndone(words: seq<nat>)
    requires |words| == 8
    ensures WordsOf(ShortText(words)) == Some(words)
  {
    hide Shorten, BeforeZone, UntilDouble, AfterDouble, WordsIn, Joined;
    JoinedPlain(words, 16, ':');
    ShortPlain(Hex(words), true);
    NoZone(ShortText(words));
    ShortTextReads(words);
    UntilHex(LastOf(words));
    HexReads(HeadOf(words));
    HexReads(LastOf(words));
    HeadAndLast(words);
  }

  // ── The string of a network ───────────────────────────────────────

  /** Each pair of bytes as one word. */
  function WordsOfBytes(bytes: seq<Byte>): (words: seq<nat>)
    ensures |words| == |bytes| / 2
  {
    if |bytes| < 2 then []
    else
      var high: int, low: int := bytes[0], bytes[1];
      [256 * high + low] + WordsOfBytes(bytes[2..])
  }

  /** Each word as a pair of bytes. */
  function BytesOfWords(words: seq<nat>): seq<nat> {
    if words == [] then [] else [words[0] / 256, words[0] % 256] + BytesOfWords(words[1..])
  }

  lemma {:induction false} WordsUndone(bytes: seq<Byte>)
    requires |bytes| % 2 == 0
    ensures BytesOfWords(WordsOfBytes(bytes)) == bytes
  {
    if bytes != [] {
      WordsUndone(bytes[2..]);
      assert bytes == [bytes[0], bytes[1]] + bytes[2..];
    }
  }

  predicate Address(bytes: seq<Byte>, v6: bool) { |bytes| == if v6 then 16 else 4 }

  /** An address's own network, as text. */
  function NetworkOf(bytes: seq<Byte>, bits: nat, v6: bool): string {
    var masked := Masked(bytes, bits);
    if v6 then ShortText(WordsOfBytes(masked)) else Joined(masked, 10, '.')
  }

  function Cidr(bytes: seq<Byte>, bits: nat, v6: bool): string {
    NetworkOf(bytes, bits, v6) + "/" + Spell(bits, 10)
  }

  /** An IPv6 network's text reads back as the masked address. */
  lemma NetworkReads(bytes: seq<Byte>, bits: nat)
    requires Address(bytes, true)
    ensures var words := WordsOf(NetworkOf(bytes, bits, true)); words.Some? && BytesOfWords(words.value) == Masked(bytes, bits)
  {
    hide WordsOf, ShortText, BytesOfWords, WordsOfBytes;
    TextUndone(WordsOfBytes(Masked(bytes, bits)));
    WordsUndone(Masked(bytes, bits));
  }

  lemma NetworkPlain(bytes: seq<Byte>, bits: nat, v6: bool)
    ensures '/' !in NetworkOf(bytes, bits, v6)
  {
    hide Joined, Shorten, WordsOfBytes, Masked;
    var masked := Masked(bytes, bits);
    if v6 {
      JoinedPlain(WordsOfBytes(masked), 16, ':');
      ShortPlain(Hex(WordsOfBytes(masked)), true);
    } else {
      JoinedPlain(masked, 10, '.');
    }
  }

  lemma NetworkAlikeIff(a: seq<Byte>, b: seq<Byte>, bits: nat, v6: bool)
    requires Address(a, v6) && Address(b, v6)
    ensures NetworkOf(a, bits, v6) == NetworkOf(b, bits, v6) <==> Masked(a, bits) == Masked(b, bits)
  {
    hide Joined, Masked, ShortText, WordsOf, BytesOfWords, Words, Split;
    if v6 {
      NetworkReads(a, bits);
      NetworkReads(b, bits);
    } else {
      SplitUndoes(Masked(a, bits), 10, '.');
      SplitUndoes(Masked(b, bits), 10, '.');
    }
  }

  lemma FirstPart(a: string, x: string)
    requires '/' !in a
    ensures Split(a + "/" + x, '/')[0] == a
  {
    Assoc(a, "/", x);
    SplitWord(a, "/" + x, '/');
  }

  lemma CutAtSlash(a: string, b: string, x: string, y: string)
    requires '/' !in a && '/' !in b && a + "/" + x == b + "/" + y
    ensures a == b && x == y
  {
    FirstPart(a, x);
    FirstPart(b, y);
    assert x == (a + "/" + x)[|a| + 1..] && y == (b + "/" + y)[|b| + 1..];
  }

  /** Two addresses of a family share a network's string exactly if they are on
      one network: the prefixes are as long, and the addresses agree over
      them. */
  lemma SameCidrIff(a: seq<Byte>, b: seq<Byte>, m: nat, n: nat, v6: bool)
    requires Address(a, v6) && Address(b, v6) && m <= 8 * |a| && n <= 8 * |a|
    ensures Cidr(a, m, v6) == Cidr(b, n, v6) <==> (m == n && SamePrefix(a, b, m))
  {
    hide NetworkOf, Spell, Parse, SamePrefix, Masked;
    if Cidr(a, m, v6) == Cidr(b, n, v6) {
      NetworkPlain(a, m, v6);
      NetworkPlain(b, n, v6);
      CutAtSlash(NetworkOf(a, m, v6), NetworkOf(b, n, v6), Spell(m, 10), Spell(n, 10));
      SpellingParses(m, 10);
      SpellingParses(n, 10);
    }
    if m == n {
      NetworkAlikeIff(a, b, m, v6);
      MaskAlikeIff(a, b, m);
    }
  }

  // ── The host's networks ───────────────────────────────────────────

  /** One address of a network interface, as the operating system lists it. */
  datatype HostAddress = HostAddress(internal: bool, v6: bool, linkLocal: bool, bits: Option<nat>, bytes: seq<Byte>)

  /** A host route is one address, not a network, and does not count. */
  predicate Counts(a: HostAddress) {
    !a.internal && a.bits.Some? && a.bits.value < if a.v6 then 128 else 32
  }

  /** Global IPv6 prefixes are widened to take in their sibling networks. */
  function Widened(a: HostAddress, widest: nat): nat
    requires Counts(a)
  {
    if a.v6 && !a.linkLocal && widest < a.bits.value then widest else a.bits.value
  }

  function CidrOf(a: HostAddress, widest: nat): string
    requires Counts(a)
  {
    Cidr(a.bytes, Widened(a, widest), a.v6)
  }

  /** Every network the host has a counting address on is listed, once, and
      nothing else is. */
  method OnLinkPrefixes(addresses: seq<HostAddress>, widest: nat) returns (cidrs: seq<string>)
    ensures forall c: string :: c in cidrs <==> exists k: nat :: k < |addresses| && Counts(addresses[k]) && CidrOf(addresses[k], widest) == c
    ensures forall i: nat, j: nat | i < j < |cidrs| :: cidrs[i] != cidrs[j]
  {
    hide Cidr;
    cidrs := [];
    for n := 0 to |addresses|
      invariant forall c: string :: c in cidrs <==> exists k: nat :: k < n && Counts(addresses[k]) && CidrOf(addresses[k], widest) == c
      invariant forall i: nat, j: nat | i < j < |cidrs| :: cidrs[i] != cidrs[j]
    {
      var a := addresses[n];
      if !Counts(a) {
        continue;
      }
      var cidr := CidrOf(a, widest);
      if cidr !in cidrs {
        cidrs := cidrs + [cidr];
      }
    }
  }

  /** So addresses of one family are listed as one network exactly if, at the
      length they are listed at, they are on one. */
  lemma ListedTogetherIff(a: HostAddress, b: HostAddress, widest: nat)
    requires Counts(a) && Counts(b) && a.v6 == b.v6 && Address(a.bytes, a.v6) && Address(b.bytes, b.v6)
    ensures CidrOf(a, widest) == CidrOf(b, widest)
      <==> (Widened(a, widest) == Widened(b, widest) && SamePrefix(a.bytes, b.bytes, Widened(a, widest)))
  {
    hide Cidr, SamePrefix;
    SameCidrIff(a.bytes, b.bytes, Widened(a, widest), Widened(b, widest), a.v6);
  }
}
