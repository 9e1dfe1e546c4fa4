/** Masking an address down to its prefix, and what that means as a number. */
module PrefixMask {
  import opened Buffers

  // ── Masking ───────────────────────────────────────────────────────

  /** Bitwise and, bit by bit. */
  function And(a: nat, b: nat): nat {
    if a == 0 || b == 0 then 0 else 2 * And(a / 2, b / 2) + (a % 2) * (b % 2)
  }

  /** How many bits of byte `i` belong to the prefix. */
  function Keep(bits: nat, i: nat): (keep: nat)
    ensures keep <= 8
  {
    if bits >= 8 * i + 8 then 8 else if bits > 8 * i then bits - 8 * i else 0
  }

  /** Shifted up and down by `n` bits. */
  function Up(a: nat, n: nat): nat {
    if n == 0 then a else 2 * Up(a, n - 1)
  }

  function Down(a: nat, n: nat): nat {
    if n == 0 then a else Down(a, n - 1) / 2
  }

  function MaskByte(b: Byte, keep: nat): (r: Byte)
    requires keep <= 8
  {
    if keep == 8 then b else if keep == 0 then 0
    else
      MaskIs(b, 8 - keep);
      And(And(b, Up(0xff, 8 - keep)), 0xff)
  }

  function Masked(bytes: seq<Byte>, bits: nat): (r: seq<Byte>)
    ensures |r| == |bytes|
  {
    seq(|bytes|, (i: nat) requires i < |bytes| => MaskByte(bytes[i], Keep(bits, i)))
  }

  lemma {:induction false} AndUp(a: nat, b: nat, n: nat)
    ensures And(a, Up(b, n)) == Up(And(Down(a, n), b), n)
  {
    if n > 0 {
      AndUp(a / 2, b, n - 1);
      DownFirst(a, n - 1);
      UpZero(n - 1);
      assert Up(b, n) == 2 * Up(b, n - 1);
      assert Up(b, n) / 2 == Up(b, n - 1) && Up(b, n) % 2 == 0;
      UpZero(n);
      if a == 0 { DownZero(n); }
    }
  }

  lemma {:induction false} DownFirst(a: nat, n: nat)
    ensures Down(a / 2, n) == Down(a, n + 1)
  {
    if n > 0 {
      DownFirst(a, n - 1);
    }
  }

  lemma {:induction false} UpZero(n: nat)
    ensures Up(0, n) == 0
  {
    if n > 0 { UpZero(n - 1); }
  }

  lemma {:induction false} DownZero(n: nat)
    ensures Down(0, n) == 0
  {
    if n > 0 { DownZero(n - 1); }
  }

  lemma {:induction false} Cleared(a: nat, n: nat)
    ensures Down(a, n) <= Up(Down(a, n), n) <= a
  {
    if n > 0 {
      DownFirst(a, n - 1);
      Cleared(a / 2, n - 1);
    }
  }

  lemma AndByte(a: nat)
    requires a < 256
    ensures And(a, 0xff) == a
  {
    AndOnes(a, 8);
  }

  /** `Up(1, n) - 1` is `n` ones. */
  lemma {:induction false} AndOnes(a: nat, n: nat)
    requires a < Up(1, n)
    ensures And(a, Up(1, n) - 1) == a
  {
    if n > 0 && a > 0 {
      var ones := Up(1, n - 1) - 1;
      assert (2 * ones + 1) / 2 == ones && (2 * ones + 1) % 2 == 1;
      AndOnes(a / 2, n - 1);
    }
  }

  /** Shifting 0xff up and taking the byte's bits under it clears the byte's
      low bits, and no others. */
  lemma MaskIs(b: Byte, low: nat)
    requires low <= 8
    ensures And(And(b, Up(0xff, low)), 0xff) == Up(Down(b, low), low) < 256
  {
    AndUp(b, 0xff, low);
    Cleared(b, low);
    AndByte(Down(b, low));
    AndByte(Up(Down(b, low), low));
  }

  lemma {:induction false} ThenDown(a: nat, m: nat, n: nat)
    ensures Down(Down(a, m), n) == Down(a, m + n)
  {
    if n > 0 { ThenDown(a, m, n - 1); }
  }

  lemma {:induction false} ThenUp(a: nat, m: nat, n: nat)
    ensures Up(Up(a, m), n) == Up(a, m + n)
  {
    if n > 0 { ThenUp(a, m, n - 1); }
  }

  lemma {:induction false} DownUp(a: nat, n: nat)
    ensures Down(Up(a, n), n) == a
  {
    if n > 0 {
      DownUp(a, n - 1);
      DownFirst(Up(a, n), n - 1);
    }
  }

  lemma {:induction false} UpOneToOne(a: nat, b: nat, n: nat)
    ensures Up(a, n) == Up(b, n) <==> a == b
  {
    if n > 0 { UpOneToOne(a, b, n - 1); }
  }

  lemma {:induction false} UpAdd(a: nat, b: nat, n: nat)
    ensures Up(a + b, n) == Up(a, n) + Up(b, n)
  {
    if n > 0 { UpAdd(a, b, n - 1); }
  }

  lemma {:induction false} DownAdd(high: nat, low: nat, n: nat)
    ensures Down(Up(high, n) + low, n) == high + Down(low, n)
  {
    if n > 0 {
      DownAdd(high, low / 2, n - 1);
      DownFirst(Up(high, n) + low, n - 1);
      DownFirst(low, n - 1);
    }
  }

  lemma UpByte(a: nat)
    ensures Up(a, 8) == 256 * a
  {
    assert Up(a, 1) == 2 * a && Up(a, 2) == 4 * a && Up(a, 3) == 8 * a && Up(a, 4) == 16 * a;
    assert Up(a, 5) == 32 * a && Up(a, 6) == 64 * a && Up(a, 7) == 128 * a;
  }

  lemma DownByte(b: Byte)
    ensures Down(b, 8) == 0
  {
    Cleared(b, 8);
    UpByte(Down(b, 8));
  }

  /** A byte put after a number keeps its own high bits and the whole number. */
  lemma LowByte(front: nat, b: Byte, n: nat)
    requires n <= 8
    ensures Up(Down(256 * front + b, n), n) == 256 * front + Up(Down(b, n), n)
  {
    UpByte(front);
    ThenUp(front, 8 - n, n);
    DownAdd(Up(front, 8 - n), b, n);
    UpAdd(Up(front, 8 - n), Down(b, n), n);
  }

  lemma WholeByte(front: nat, b: Byte, n: nat)
    ensures Up(Down(256 * front + b, 8 + n), 8 + n) == 256 * Up(Down(front, n), n)
  {
    UpByte(front);
    DownAdd(front, b, 8);
    DownByte(b);
    ThenDown(256 * front + b, 8, n);
    ThenUp(Down(front, n), n, 8);
    UpByte(Up(Down(front, n), n));
  }

  lemma MaskFront(bytes: seq<Byte>, bits: nat)
    requires bytes != []
    ensures var front, last := bytes[..|bytes| - 1], |bytes| - 1;
      && Masked(bytes, bits)[..last] == Masked(front, bits)
      && Masked(bytes, bits)[last] == MaskByte(bytes[last], Keep(bits, last))
      && (bits >= 8 * last ==> Masked(front, bits) == front)
  {
  }

  lemma MaskByteIs(b: Byte, keep: nat)
    requires keep <= 8
    ensures MaskByte(b, keep) == Up(Down(b, 8 - keep), 8 - keep)
  {
    if keep == 0 {
      DownByte(b);
      UpZero(8);
    } else {
      MaskIs(b, 8 - keep);
    }
  }

  /** Masking clears exactly the host bits: it floor-divides the address by two
      to the number of host bits, and multiplies back. */
  lemma {:induction false} MaskedIs(bytes: seq<Byte>, bits: nat)
    requires bits <= 8 * |bytes|
    ensures var host := 8 * |bytes| - bits; Number(Masked(bytes, bits)) == Up(Down(Number(bytes), host), host)
  {
    hide MaskByte, Masked, Up, Down;
    if bytes == [] {
      NothingMasked(bits);
    } else {
      var last := |bytes| - 1;
      var front, b, host := bytes[..last], bytes[last], 8 * |bytes| - bits;
      MaskFront(bytes, bits);
      MaskByteIs(b, Keep(bits, last));
      if host <= 8 {
        LowByte(Number(front), b, host);
      } else {
        MaskedIs(front, bits);
        WholeByte(Number(front), b, host - 8);
        DownByte(b);
        ByteGone(b);
      }
    }
  }

  lemma NothingMasked(bits: nat)
    requires bits == 0
    ensures Number(Masked([], bits)) == Up(Down(Number([]), 0), 0)
  {
  }

  lemma ByteGone(b: Byte)
    ensures Up(Down(b, 8), 8) == 0
  {
    DownByte(b);
    UpZero(8);
  }

  lemma MaskTwice(bytes: seq<Byte>, bits: nat)
    requires bits <= 8 * |bytes|
    ensures Masked(Masked(bytes, bits), bits) == Masked(bytes, bits)
  {
    var once, host := Masked(bytes, bits), 8 * |bytes| - bits;
    MaskedIs(bytes, bits);
    MaskedIs(once, bits);
    DownUp(Down(Number(bytes), host), host);
    BytesOfNumber(once);
    BytesOfNumber(Masked(once, bits));
  }

  /** Two addresses mask alike exactly if they agree above the host bits. */
  lemma MaskAlikeIff(a: seq<Byte>, b: seq<Byte>, bits: nat)
    requires |a| == |b| && bits <= 8 * |a|
    ensures Masked(a, bits) == Masked(b, bits) <==> SamePrefix(a, b, bits)
  {
    var host := 8 * |a| - bits;
    MaskedIs(a, bits);
    MaskedIs(b, bits);
    UpOneToOne(Down(Number(a), host), Down(Number(b), host), host);
    BytesOfNumber(Masked(a, bits));
    BytesOfNumber(Masked(b, bits));
  }

  predicate SamePrefix(a: seq<Byte>, b: seq<Byte>, bits: nat)
    requires |a| == |b| && bits <= 8 * |a|
  {
    Down(Number(a), 8 * |a| - bits) == Down(Number(b), 8 * |a| - bits)
  }

  function Pow2(n: nat): (p: nat)
    ensures p > 0
  {
    if n == 0 then 1 else 2 * Pow2(n - 1)
  }

  lemma {:induction false} UpIs(a: nat, n: nat)
    ensures Up(a, n) == a * Pow2(n)
  {
    if n > 0 { UpIs(a, n - 1); }
  }

  lemma {:induction false} DownIs(a: nat, n: nat)
    ensures Down(a, n) == a / Pow2(n)
  {
    if n > 0 {
      DownIs(a, n - 1);
      HalfOf(a, Pow2(n - 1));
    }
  }

  lemma HalfOf(a: nat, p: nat)
    requires p > 0
    ensures a / p / 2 == a / (2 * p)
  {
    var q, r := a / p, a % p;
    assert a == p * q + r;
    var h, odd := q / 2, q % 2;
    assert q == 2 * h + odd;
    Regrouped(p, h, odd);
    DivisionIs(a, 2 * p, h, p * odd + r);
  }

  lemma Regrouped(p: nat, h: nat, odd: nat)
    requires odd < 2
    ensures p * (2 * h + odd) == (2 * p) * h + p * odd && p * odd <= p
  {
  }

  lemma DivisionIs(a: nat, d: nat, q: nat, r: nat)
    requires r < d && a == d * q + r
    ensures a / d == q
  {
    var e, s := a / d, a % d;
    assert a == d * e + s;
    if e < q {
      Larger(d, e, q);
    } else if q < e {
      Larger(d, q, e);
    }
  }

  lemma Larger(d: nat, e: nat, q: nat)
    requires e < q
    ensures d * e + d <= d * q
  {
    if e + 1 < q { Larger(d, e, q - 1); }
    assert d * q == d * (q - 1) + d;
  }
}
