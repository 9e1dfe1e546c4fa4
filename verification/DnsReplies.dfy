/** What a reply to a pointer query says: which of its records answers, and
    what name is taken out of it. */
module DnsReplies {
  import opened Buffers
  import opened Field
  import opened DnsNames

  // ── Texts ─────────────────────────────────────────────────────────

  /** A capital letter of Latin-1 and its small one. */
  predicate CapitalOf(capital: Byte, small: Byte) {
    small == capital + 0x20 && (0x41 <= capital <= 0x5A || (0xC0 <= capital <= 0xDE && capital != 0xD7))
  }

  /** The same but for capitals. */
  ghost predicate SameButCase(a: Text, b: Text) {
    |a| == |b| && forall i: nat | i < |a| :: a[i] == b[i] || CapitalOf(a[i], b[i]) || CapitalOf(b[i], a[i])
  }

  lemma LowerIff(a: Text, b: Text)
    ensures Lower(a) == Lower(b) <==> SameButCase(a, b)
  {
    if Lower(a) == Lower(b) {
      forall i: nat | i < |a| ensures a[i] == b[i] || CapitalOf(a[i], b[i]) || CapitalOf(b[i], a[i]) {
        assert Lower(a)[i] == Lower(b)[i];
      }
    }
    if SameButCase(a, b) {
      forall i: nat | i < |a| ensures Lower(a)[i] == Lower(b)[i] {}
    }
  }

  /** `name` stands at `i`, with nothing but blanks around it and none at its
      own ends. */
  ghost predicate Trims(text: Text, name: Text, i: nat) {
    && i + |name| <= |text| && text[i..i + |name|] == name
    && (forall j: nat | j < |text| && (j < i || j >= i + |name|) :: White(text[j]))
    && (name != [] ==> !White(name[0]) && !White(name[|name| - 1]))
  }

  lemma {:induction false} TrimLeftIs(text: Text)
    ensures var n := TrimLeft(text); |n| <= |text| && n == text[|text| - |n|..]
    ensures forall j: nat | j < |text| - |TrimLeft(text)| :: White(text[j])
    ensures TrimLeft(text) != [] ==> !White(TrimLeft(text)[0])
  {
    if text != [] && White(text[0]) {
      TrimLeftIs(text[1..]);
      forall j: nat | j < |text| - |TrimLeft(text)| ensures White(text[j]) {
        if j > 0 { assert text[1..][j - 1] == text[j]; }
      }
    }
  }

  lemma {:induction false} TrimRightIs(text: Text)
    ensures var n := TrimRight(text); |n| <= |text| && n == text[..|n|]
    ensures forall j: nat | |TrimRight(text)| <= j < |text| :: White(text[j])
    ensures TrimRight(text) != [] ==> !White(TrimRight(text)[|TrimRight(text)| - 1])
  {
    if text != [] && White(text[|text| - 1]) {
      TrimRightIs(text[..|text| - 1]);
      forall j: nat | |TrimRight(text)| <= j < |text| ensures White(text[j]) {
        if j < |text| - 1 { assert text[..|text| - 1][j] == text[j]; }
      }
    }
  }

  lemma TrimIs(text: Text)
    ensures exists i: nat :: Trims(text, Trim(text), i)
  {
    TrimLeftIs(text);
    var left := TrimLeft(text);
    TrimRightIs(left);
    var i := |text| - |left|;
    var name := Trim(text);
    forall j: nat | j < |text| && (j < i || j >= i + |name|) ensures White(text[j]) {
      if j >= i { assert left[j - i] == text[j]; }
    }
    assert Trims(text, name, i);
  }

  /** The first label of the text ends at `d`. */
  ghost predicate FirstLabelTo(text: Text, d: nat) { d <= |text| && DOT !in text[..d] && (d < |text| ==> text[d] == DOT) }

  lemma {:induction false} SplitFirst(text: Text)
    ensures FirstLabelTo(text, |Split(text)[0]|) && Split(text)[0] == text[..|Split(text)[0]|]
  {
    if text != [] && text[0] != DOT {
      SplitFirst(text[1..]);
      var d := |Split(text[1..])[0]|;
      assert text[..d + 1] == [text[0]] + text[1..][..d];
    }
  }

  /** A name without the dot it may end in. */
  function WithoutDot(text: Text): Text { if text != [] && text[|text| - 1] == DOT then text[..|text| - 1] else text }

  /** The name taken out of a full one is its first label, without the blanks
      around it. */
  ghost predicate TakenOut(text: Text, name: Text) {
    name != [] && exists d: nat, i: nat :: FirstLabelTo(WithoutDot(text), d) && Trims(WithoutDot(text)[..d], name, i)
  }

  ghost predicate BlankName(text: Text) {
    exists d: nat :: FirstLabelTo(WithoutDot(text), d) && forall j: nat | j < d :: White(WithoutDot(text)[j])
  }

  /** Nothing is taken out of a text whose first label is blank. */
  lemma ShortNameIs(text: Text)
    ensures ShortName(text).Some? ==> TakenOut(text, ShortName(text).value)
    ensures ShortName(text).None? ==> BlankName(text)
  {
    hide Trims;
    var t := WithoutDot(text);
    SplitFirst(t);
    var piece := Split(t)[0];
    TrimIs(piece);
    var i: nat :| Trims(piece, Trim(piece), i);
    if ShortName(text).Some? {
      assert FirstLabelTo(t, |piece|) && Trims(t[..|piece|], ShortName(text).value, i);
    } else {
      if text != [] { BlankTrims(piece, i); }
      assert FirstLabelTo(t, |piece|);
    }
  }

  lemma BlankTrims(piece: Text, i: nat)
    requires Trims(piece, [], i)
    ensures forall j: nat | j < |piece| :: White(piece[j])
  {
  }

  // ── Records ───────────────────────────────────────────────────────

  /** A record stands whole at `pos`: a name, ten bytes, and as many as the last
      two of those say. */
  predicate Whole(msg: seq<Byte>, pos: nat) {
    var owner := NameAt(msg, pos);
    owner.Some? && owner.value.next + 10 <= |msg| && owner.value.next + 10 + Word(msg, owner.value.next + 8) <= |msg|
  }

  /** Where the record at `pos` ends. */
  function RecordEnd(msg: seq<Byte>, pos: nat): nat
    requires Whole(msg, pos)
  {
    var at := NameAt(msg, pos).value.next;
    at + 10 + Word(msg, at + 8)
  }

  /** Where record `k` begins, the first being at `pos`, if all before it are whole. */
  function RecordAt(msg: seq<Byte>, pos: nat, k: nat): Option<nat>
    decreases k
  {
    if k == 0 then Some(pos)
    else
      var before := RecordAt(msg, pos, k - 1);
      if before.None? || !Whole(msg, before.value) then None else Some(RecordEnd(msg, before.value))
  }

  lemma {:induction false} NextRecordAt(msg: seq<Byte>, pos: nat, k: nat)
    ensures RecordAt(msg, pos, k + 1) == if Whole(msg, pos) then RecordAt(msg, RecordEnd(msg, pos), k) else None
    decreases k
  {
    if k > 0 { NextRecordAt(msg, pos, k - 1); }
  }

  /** Record `k` is whole, of type PTR, of the name asked for, whatever the case
      of its letters, and leads to a name. */
  ghost predicate Answers(msg: seq<Byte>, pos: nat, k: nat, query: Text, name: Text) {
    var p := RecordAt(msg, pos, k);
    && p.Some? && Whole(msg, p.value)
    && var at := NameAt(msg, p.value).value.next;
       && msg[at] == 0 && msg[at + 1] == 12 && SameButCase(NameAt(msg, p.value).value.text, query)
       && NameAt(msg, at + 10).Some? && ShortName(NameAt(msg, at + 10).value.text) == Some(name)
  }

  ghost predicate NoneBefore(msg: seq<Byte>, pos: nat, k: nat, query: Text) {
    forall j: nat, name: Text | j < k :: !Answers(msg, pos, j, query, name)
  }

  /** `name` is what the first of `count` records to answer leads to. */
  ghost predicate FirstToAnswer(msg: seq<Byte>, pos: nat, count: nat, query: Text, name: Text) {
    exists k: nat :: k < count && Answers(msg, pos, k, query, name) && NoneBefore(msg, pos, k, query)
  }

  lemma AnswersNext(msg: seq<Byte>, pos: nat, k: nat, query: Text, name: Text)
    requires Whole(msg, pos)
    ensures Answers(msg, pos, k + 1, query, name) <==> Answers(msg, RecordEnd(msg, pos), k, query, name)
  {
    NextRecordAt(msg, pos, k);
  }

  /** The first of `count` records answers, or the rest is searched. */
  lemma FirstAnswers(msg: seq<Byte>, pos: nat, count: nat, query: Text)
    requires count > 0
    ensures var r := FirstTarget(msg, pos, count, query);
      if !Whole(msg, pos) then r.None?
      else if r.Some? && Answers(msg, pos, 0, query, r.value) then true
      else r == FirstTarget(msg, RecordEnd(msg, pos), count - 1, query) && forall name: Text :: !Answers(msg, pos, 0, query, name)
  {
    hide NameAt, ShortName, Lower, SameButCase;
    if NameAt(msg, pos).Some? { LowerIff(NameAt(msg, pos).value.text, query); }
  }

  lemma NoneBeforeNext(msg: seq<Byte>, pos: nat, k: nat, query: Text)
    requires Whole(msg, pos) && forall name: Text :: !Answers(msg, pos, 0, query, name)
    ensures NoneBefore(msg, pos, k + 1, query) <==> NoneBefore(msg, RecordEnd(msg, pos), k, query)
  {
    hide Answers, Whole;
    forall j: nat, name: Text ensures Answers(msg, pos, j + 1, query, name) <==> Answers(msg, RecordEnd(msg, pos), j, query, name) {
      AnswersNext(msg, pos, j, query, name);
    }
    if NoneBefore(msg, pos, k + 1, query) {
      forall j: nat, name: Text | j < k ensures !Answers(msg, RecordEnd(msg, pos), j, query, name) {
        assert !Answers(msg, pos, j + 1, query, name);
      }
    }
    if NoneBefore(msg, RecordEnd(msg, pos), k, query) {
      forall j: nat, name: Text | j < k + 1 ensures !Answers(msg, pos, j, query, name) {
        if j > 0 { assert !Answers(msg, RecordEnd(msg, pos), j - 1, query, name); }
      }
    }
  }

  lemma NotWholeNone(msg: seq<Byte>, pos: nat, k: nat, query: Text)
    requires !Whole(msg, pos)
    ensures NoneBefore(msg, pos, k, query)
  {
    forall j: nat, name: Text | j < k ensures !Answers(msg, pos, j, query, name) {
      if j > 0 { NextRecordAt(msg, pos, j - 1); }
    }
  }

  /** The search comes to the first record that answers, and to nothing exactly
      if none does. */
  lemma {:induction false} FirstTargetIs(msg: seq<Byte>, pos: nat, count: nat, query: Text)
    ensures var r := FirstTarget(msg, pos, count, query);
      && (r.Some? ==> FirstToAnswer(msg, pos, count, query, r.value))
      && (r.None? ==> NoneBefore(msg, pos, count, query))
    decreases count
  {
    hide Answers, Whole, FirstTarget;
    var r := FirstTarget(msg, pos, count, query);
    if count == 0 {
      NothingFound(msg, pos, query);
    } else {
      FirstAnswers(msg, pos, count, query);
      if !Whole(msg, pos) {
        NotWholeNone(msg, pos, count, query);
      } else if r.Some? && Answers(msg, pos, 0, query, r.value) {
        assert NoneBefore(msg, pos, 0, query);
      } else {
        var end := RecordEnd(msg, pos);
        FirstTargetIs(msg, end, count - 1, query);
        if r.Some? {
          var k: nat :| k < count - 1 && Answers(msg, end, k, query, r.value) && NoneBefore(msg, end, k, query);
          AnswersNext(msg, pos, k, query, r.value);
          NoneBeforeNext(msg, pos, k, query);
          assert Answers(msg, pos, k + 1, query, r.value) && NoneBefore(msg, pos, k + 1, query);
        } else {
          NoneBeforeNext(msg, pos, count - 1, query);
        }
      }
    }
  }

  lemma NothingFound(msg: seq<Byte>, pos: nat, query: Text)
    ensures FirstTarget(msg, pos, 0, query) == None
  {
  }

  /** A reply yields the name of the first of its records that answers; one too
      short, without records or with a broken question yields none. */
  lemma PtrResponseIs(msg: seq<Byte>, query: Text)
    ensures var r := PtrResponse(msg, query);
      if |msg| < 12 || (msg[6] == 0 && msg[7] == 0) || PastQuestions(msg, 12, Word(msg, 4)).None? then r.None?
      else var pos, count := PastQuestions(msg, 12, Word(msg, 4)).value, Word(msg, 6);
        && (r.Some? ==> FirstToAnswer(msg, pos, count, query, r.value))
        && (r.None? ==> NoneBefore(msg, pos, count, query))
  {
    hide FirstTarget, PastQuestions, FirstToAnswer, NoneBefore;
    if |msg| >= 12 && Word(msg, 6) > 0 {
      var pos := PastQuestions(msg, HEADER, Word(msg, 4));
      if pos.Some? {
        FirstTargetIs(msg, pos.value, Word(msg, 6), query);
      }
    }
  }
}
