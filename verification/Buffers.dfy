/** Byte cursors: big-endian numbers of one to eight bytes, read from and
    written to a buffer that remembers how far it has got. */
module Buffers {

  type Byte = b: int | 0 <= b < 256

  datatype Fault = Overflow | BadSize | TooLarge | OutOfRange

  datatype Result<+T> = Ok(value: T) | Err(fault: Fault)

  // ── Big-endian numbers ────────────────────────────────────────────

  function Number(bytes: seq<Byte>): nat {
    if bytes == [] then 0 else 256 * Number(bytes[..|bytes| - 1]) + bytes[|bytes| - 1]
  }

  function Bytes(size: nat, value: nat): (bytes: seq<Byte>)
    ensures |bytes| == size
  {
    if size == 0 then [] else Bytes(size - 1, value / 256) + [value % 256]
  }

  /** How many values `size` bytes can hold. */
  function Span(size: nat): (n: nat)
    ensures n > 0
  {
    if size == 0 then 1 else 256 * Span(size - 1)
  }

  lemma {:induction false} NumberOfBytes(size: nat, value: nat)
    requires value < Span(size)
    ensures Number(Bytes(size, value)) == value
  {
    if size > 0 {
      NumberOfBytes(size - 1, value / 256);
      assert Bytes(size, value)[..size - 1] == Bytes(size - 1, value / 256);
    }
  }

  lemma {:induction false} BytesOfNumber(bytes: seq<Byte>)
    ensures Bytes(|bytes|, Number(bytes)) == bytes && Number(bytes) < Span(|bytes|)
  {
    if bytes != [] {
      var front := bytes[..|bytes| - 1];
      BytesOfNumber(front);
      assert Number(bytes) / 256 == Number(front);
      assert bytes == front + [bytes[|bytes| - 1]];
    }
  }

  /** A value that fits in fewer bytes has zeros in front. */
  lemma {:induction false} LeadingZeros(extra: nat, size: nat, value: nat)
    requires value < Span(size)
    ensures Bytes(extra + size, value) == Bytes(extra, 0) + Bytes(size, value)
  {
    if size == 0 {
      assert Bytes(extra, 0) + Bytes(0, value) == Bytes(extra, 0);
    } else {
      LeadingZeros(extra, size - 1, value / 256);
      assert Bytes(extra, 0) + (Bytes(size - 1, value / 256) + [value % 256])
             == (Bytes(extra, 0) + Bytes(size - 1, value / 256)) + [value % 256];
    }
  }

  lemma {:induction false} ZeroBytes(size: nat)
    ensures Number(Bytes(size, 0)) == 0
  {
    NumberOfBytes(size, 0);
  }

  // ── Reading ───────────────────────────────────────────────────────

  datatype Read<+T> = Read(result: Result<T>, at: nat)

  /** Up to six bytes in one go. */
  function ReadShort(buffer: seq<Byte>, at: nat, size: nat): (r: Read<nat>)
    requires at <= |buffer|
    ensures at <= r.at <= |buffer|
  {
    if at + size > |buffer| then Read(Err(Overflow), at) else Read(Ok(Number(buffer[at..at + size])), at + size)
  }

  /** Seven or eight bytes, if the first one or two are zero: a JavaScript
      number is read six bytes at most. */
  function ReadNumberAt(buffer: seq<Byte>, at: nat, size: int): (r: Read<nat>)
    requires at <= |buffer|
    ensures at <= r.at <= |buffer|
  {
    if size < 1 || size > 8 then Read(Err(BadSize), at)
    else if size <= 6 then ReadShort(buffer, at, size)
    else
      var high := ReadShort(buffer, at, size - 6);
      if high.result.Err? then high
      else if high.result.value != 0 then Read(Err(TooLarge), high.at)
      else ReadShort(buffer, high.at, 6)
  }

  predicate Fits(size: int, value: int) { 1 <= size <= 8 && 0 <= value < Span(if size > 6 then 6 else size) }

  /** Reading undoes writing, wherever in a buffer it was written. */
  lemma ReadsBack(before: seq<Byte>, size: int, value: nat, after: seq<Byte>)
    requires Fits(size, value)
    ensures ReadNumberAt(before + Bytes(size, value) + after, |before|, size) == Read(Ok(value), |before| + size)
  {
    var buffer := before + Bytes(size, value) + after;
    var at := |before|;
    if size <= 6 {
      assert buffer[at..at + size] == Bytes(size, value);
      NumberOfBytes(size, value);
    } else {
      LeadingZeros(size - 6, 6, value);
      ZeroBytes(size - 6);
      NumberOfBytes(6, value);
      assert buffer[at..at + (size - 6)] == Bytes(size - 6, 0);
      assert buffer[at + (size - 6)..at + (size - 6) + 6] == Bytes(6, value);
    }
  }

  /** And a number that was read is spelled by the bytes it was read from. */
  lemma ReadSpells(buffer: seq<Byte>, at: nat, size: int)
    requires at <= |buffer| && ReadNumberAt(buffer, at, size).result.Ok?
    ensures var r := ReadNumberAt(buffer, at, size);
            && r.at == at + size && Fits(size, r.result.value)
            && buffer[at..r.at] == Bytes(size, r.result.value)
  {
    hide Number, Bytes, Span;
    if size <= 6 {
      BytesOfNumber(buffer[at..at + size]);
    } else {
      var high, low := buffer[at..at + (size - 6)], buffer[at + (size - 6)..at + size];
      BytesOfNumber(high);
      BytesOfNumber(low);
      LeadingZeros(size - 6, 6, Number(low));
      assert buffer[at..at + size] == high + low;
    }
  }

  class BufferReader {
    const buffer: seq<Byte>
    var offset: nat

    ghost predicate Valid()
      reads this
    {
      offset <= |buffer|
    }

    constructor (buffer: seq<Byte>)
      ensures Valid() && this.buffer == buffer && offset == 0
    {
      this.buffer := buffer;
      offset := 0;
    }

    function Remaining(): (n: nat)
      requires Valid()
      reads this
      ensures n == |buffer[offset..]|
    {
      |buffer| - offset
    }

    method ReadNumber(size: int) returns (r: Result<nat>)
      requires Valid()
      modifies `offset
      ensures Valid() && Read(r, offset) == ReadNumberAt(buffer, old(offset), size)
      decreases size
    {
      if size < 1 || size > 8 {
        return Err(BadSize);
      }
      var bytes := size;
      if size > 6 {
        var high := ReadNumber(size - 6);
        if high.Err? {
          return high;
        }
        if high.value != 0 {
          return Err(TooLarge);
        }
        bytes := 6;
      }
      if offset + bytes > |buffer| {
        return Err(Overflow);
      }
      r := Ok(Number(buffer[offset..offset + bytes]));
      offset := offset + bytes;
    }

    method ReadSlice(length: nat) returns (r: Result<seq<Byte>>)
      requires Valid()
      modifies `offset
      ensures Valid()
      ensures if old(offset) + length > |buffer| then r == Err(Overflow) && offset == old(offset)
              else r == Ok(buffer[old(offset)..old(offset) + length]) && offset == old(offset) + length
    {
      if offset + length > |buffer| {
        return Err(Overflow);
      }
      r := Ok(buffer[offset..offset + length]);
      offset := offset + length;
    }

    method ReadRest() returns (rest: seq<Byte>)
      requires Valid()
      modifies `offset
      ensures Valid() && rest == buffer[old(offset)..] && offset == |buffer|
    {
      rest := buffer[offset..];
      offset := |buffer|;
    }

    /** A length of `size` bytes, six at most, and as many bytes. Nothing is
        taken when they are not all there. */
    method ReadSizedBuffer(size: int) returns (r: Result<seq<Byte>>)
      requires Valid()
      modifies `offset
      ensures Valid()
      ensures !(1 <= size <= 6 && size <= old(Remaining())) ==> r == Err(OutOfRange) && offset == old(offset)
      ensures 1 <= size <= 6 && size <= old(Remaining()) ==>
                var length := Number(buffer[old(offset)..old(offset) + size]);
                if old(Remaining()) < length + size then r == Err(Overflow) && offset == old(offset)
                else offset == old(offset) + size + length && r == Ok(buffer[old(offset) + size..offset])
    {
      if size < 1 || size > 6 || Remaining() < size {
        return Err(OutOfRange);
      }
      var length := Number(buffer[offset..offset + size]);
      if Remaining() < length + size {
        return Err(Overflow);
      }
      offset := offset + size;
      r := ReadSlice(length);
    }
  }

  class BufferWriter {
    const buffer: array<Byte>
    var offset: nat

    ghost predicate Valid()
      reads this
    {
      offset <= buffer.Length
    }

    constructor (buffer: array<Byte>)
      ensures Valid() && this.buffer == buffer && offset == 0
    {
      this.buffer := buffer;
      offset := 0;
    }

    /** What has been written so far. */
    function Trimmed(): seq<Byte>
      requires Valid()
      reads this, buffer
    {
      buffer[..offset]
    }

    method Store(bytes: seq<Byte>)
      requires Valid() && offset + |bytes| <= buffer.Length
      modifies `offset, buffer
      ensures Valid() && Trimmed() == old(Trimmed()) + bytes
      ensures offset == old(offset) + |bytes| && buffer[offset..] == old(buffer[offset + |bytes|..])
    {
      var start := offset;
      for i := 0 to |bytes|
        invariant buffer[..start] == old(buffer[..offset])
        invariant buffer[start..start + i] == bytes[..i]
        invariant buffer[start + |bytes|..] == old(buffer[offset + |bytes|..])
      {
        buffer[start + i] := bytes[i];
        assert buffer[start..start + i + 1] == buffer[start..start + i] + [bytes[i]];
      }
      offset := start + |bytes|;
      assert buffer[..offset] == buffer[..start] + buffer[start..offset];
    }

    /** Zeros stand in front of a number of seven or eight bytes. A value that
        does not fit is refused, after those zeros have been written. */
    method WriteNumber(size: int, value: int) returns (r: Result<()>)
      requires Valid()
      modifies `offset, buffer
      ensures Valid()
      ensures r.Ok? <==> 1 <= size <= 8 && old(offset) + size <= buffer.Length && Fits(size, value)
      ensures r.Ok? ==> Trimmed() == old(Trimmed()) + Bytes(size, value)
      ensures r.Err? && r.fault != OutOfRange ==> offset == old(offset) && buffer[..] == old(buffer[..])
      ensures r.Err? && r.fault == OutOfRange ==> Trimmed() == old(Trimmed()) + Bytes(if size > 6 then size - 6 else 0, 0)
      decreases size
    {
      if size < 1 || size > 8 {
        return Err(BadSize);
      }
      if buffer.Length - offset < size {
        return Err(Overflow);
      }
      var bytes := size;
      if size > 6 {
        ZeroFits(size - 6);
        var zeros := WriteNumber(size - 6, 0);
        bytes := 6;
      }
      if value < 0 || value >= Span(bytes) {
        return Err(OutOfRange);
      }
      LeadingZeros(size - bytes, bytes, value);
      Store(Bytes(bytes, value));
      return Ok(());
    }

    static lemma ZeroFits(size: nat)
      requires 1 <= size <= 8
      ensures Fits(size, 0)
    {
    }

    method WriteBuffer(bytes: seq<Byte>) returns (r: Result<()>)
      requires Valid()
      modifies `offset, buffer
      ensures Valid()
      ensures if old(offset) + |bytes| > buffer.Length then r == Err(Overflow) && offset == old(offset) && buffer[..] == old(buffer[..])
              else r == Ok(()) && Trimmed() == old(Trimmed()) + bytes
    {
      if buffer.Length - offset < |bytes| {
        return Err(Overflow);
      }
      Store(bytes);
      return Ok(());
    }
  }
}
