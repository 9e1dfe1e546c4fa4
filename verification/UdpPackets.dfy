/** What a Driver Station puts into a status packet, and that the field reads
    each of its parts back from its own place. */
module UdpPackets {
  import opened Buffers
  import opened Field
  import opened Framer
  import opened UdpStatus
  import TcpMessages

  function ModeBits(mode: Option<Mode>): Byte {
    match mode
    case None => 3
    case Some(TeleOpMode) => 0
    case Some(TestMode) => 1
    case Some(AutoMode) => 2
  }

  /** The bits of the status byte, highest first, and the mode in the lowest two. */
  function StatusBits(s: DsStatus): Byte {
    TcpMessages.Set(s.eStop, 0x80) + TcpMessages.Set(s.aStop, 0x40) + TcpMessages.Set(s.robotComms, 0x20)
    + TcpMessages.Set(s.radioPing, 0x10) + TcpMessages.Set(s.rioPing, 0x08) + TcpMessages.Set(s.enabled, 0x04) + ModeBits(s.mode)
  }

  predicate HeaderFits(h: Header) {
    && h.sequence <= 0xFFFF && h.commVersion <= 0xFF && h.rawStatus == StatusBits(h.status) && h.teamNumber <= 0xFFFF
    && TcpMessages.VoltageFits(h.voltage)
  }

  /** Eight bytes: sequence, version, status, team, battery. */
  function HeaderBytes(h: Header): (bytes: seq<Byte>)
    requires HeaderFits(h)
    ensures |bytes| == 8
  {
    Bytes(2, h.sequence) + [h.commVersion, StatusBits(h.status)] + Bytes(2, h.teamNumber) + TcpMessages.VoltageBytes(h.voltage)
  }

  function One(on: bool): nat { if on then 1 else 0 }

  lemma HighBits(s: DsStatus)
    ensures var n := StatusBits(s); Bit(n, 0x80) == s.eStop && Bit(n, 0x40) == s.aStop && Bit(n, 0x20) == s.robotComms
  {
    hide Bit;
    var n, low := StatusBits(s), 16 * One(s.radioPing) + 8 * One(s.rioPing) + 4 * One(s.enabled) + ModeBits(s.mode);
    TcpMessages.BitIs(n, 0x80, 0, s.eStop, 64 * One(s.aStop) + 32 * One(s.robotComms) + low);
    TcpMessages.BitIs(n, 0x40, One(s.eStop), s.aStop, 32 * One(s.robotComms) + low);
    TcpMessages.BitIs(n, 0x20, 2 * One(s.eStop) + One(s.aStop), s.robotComms, low);
  }

  lemma LowBits(s: DsStatus)
    ensures var n := StatusBits(s); Bit(n, 0x10) == s.radioPing && Bit(n, 0x08) == s.rioPing && Bit(n, 0x04) == s.enabled
    ensures StatusBits(s) % 4 == ModeBits(s.mode)
  {
    hide Bit;
    var n, high, m := StatusBits(s), 4 * One(s.eStop) + 2 * One(s.aStop) + One(s.robotComms), ModeBits(s.mode);
    TcpMessages.BitIs(n, 0x10, high, s.radioPing, 8 * One(s.rioPing) + 4 * One(s.enabled) + m);
    TcpMessages.BitIs(n, 0x08, 2 * high + One(s.radioPing), s.rioPing, 4 * One(s.enabled) + m);
    TcpMessages.BitIs(n, 0x04, 4 * high + 2 * One(s.radioPing) + One(s.rioPing), s.enabled, m);
  }

  lemma StatusReads(s: DsStatus)
    ensures DsStatusOf(StatusBits(s)) == s
  {
    hide Bit, StatusBits;
    HighBits(s);
    LowBits(s);
  }

  /** Every part of the header is read from its place. */
  lemma HeaderReads(h: Header)
    requires HeaderFits(h)
    ensures HeaderOf(HeaderBytes(h)) == h
  {
    hide Number, Bytes, StatusBits, DsStatusOf, Voltage, TcpMessages.VoltageBytes;
    var bytes := HeaderBytes(h);
    StatusReads(h.status);
    TcpMessages.TwoBytes(h.sequence);
    TcpMessages.TwoBytes(h.teamNumber);
    TcpMessages.VoltageReads(h.voltage);
    assert bytes[..2] == Bytes(2, h.sequence);
    assert bytes[4..6] == Bytes(2, h.teamNumber);
    assert bytes[6..8] == TcpMessages.VoltageBytes(h.voltage);
  }

  /** A whole packet reads back: its header and each of its tags. */
  lemma PacketReads(h: Header, metrics: seq<Metrics>)
    requires HeaderFits(h) && forall m :: m in metrics ==> Sendable(m)
    ensures ParseUdp(HeaderBytes(h) + Packed(Encoded(metrics))) == Ok(UdpMessage(h, metrics))
  {
    hide HeaderBytes, HeaderOf, ParseUdp, Packed, Encoded;
    HeaderReads(h);
    RoundTrip(HeaderBytes(h), metrics);
  }
}
