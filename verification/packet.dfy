/** The packet view parser. A packet owns a copy of a captured frame and
    records where, inside that copy, the IP header, the ICMP/UDP sub-header
    and the payload start. Where the C code casts pointers into the buffer,
    this model keeps natural-number offsets into an immutable byte sequence.

    The C code reads header bytes without checking them against the buffer
    length. The model makes each such read explicit: a read past the end
    yields `OutOfBounds(offset)`. That check is the model's own, not
    something the C enforces. */
module Packet {
  import opened Wrappers

  type byte = bv8

  // Header lengths from libnet (LIBNET_ETH_H, LIBNET_UDP_H).
  const EthHeaderLen: nat := 14
  const UdpHeaderLen: nat := 8

  // ICMPv4 header lengths from libnet (LIBNET_ICMPV4_*_H).
  const IcmpEchoHeaderLen: nat := 8
  const IcmpUnreachHeaderLen: nat := 8
  const IcmpRedirectHeaderLen: nat := 8
  const IcmpTimeExceededHeaderLen: nat := 8
  const IcmpTimestampHeaderLen: nat := 20
  const IcmpMaskHeaderLen: nat := 12

  // IP protocol numbers.
  const ProtoIcmp: byte := 1
  const ProtoTcp: byte := 6
  const ProtoUdp: byte := 17

  // ICMP message types (RFC 792, mask messages from RFC 950, router
  // discovery from RFC 1256).
  const IcmpEchoReply: byte := 0
  const IcmpUnreach: byte := 3
  const IcmpSourceQuench: byte := 4
  const IcmpRedirect: byte := 5
  const IcmpEcho: byte := 8
  const IcmpRouterAdvert: byte := 9
  const IcmpRouterSolicit: byte := 10
  const IcmpTimeExceeded: byte := 11
  const IcmpParamProblem: byte := 12
  const IcmpTimestamp: byte := 13
  const IcmpTimestampReply: byte := 14
  const IcmpInfoRequest: byte := 15
  const IcmpInfoReply: byte := 16
  const IcmpMaskRequest: byte := 17
  const IcmpMaskReply: byte := 18

  // Byte positions read inside the headers: version/IHL and Protocol of
  // the IPv4 header (section 3.1 of RFC 791), the byte libnet's
  // `libnet_ipv6_hdr` calls `ip_hl` (the hop limit), and the ICMP type.
  const Ipv4VersionIhlAt: nat := 0
  const Ipv4ProtocolAt: nat := 9
  const Ipv6HopLimitAt: nat := 7
  const IcmpTypeAt: nat := 0

  /** Capture time; zero for a packet built from a buffer. */
  datatype Timespec = Timespec(sec: int, nsec: int)

  const ZeroTime := Timespec(0, 0)

  /** A packet: its own copy of the bytes (the length is `|buf|`), the
      capture time, the IP version it was parsed as, and the views. A view
      is `None` where the C leaves the pointer unset. `sub` stands for the
      `icmp`/`udp`/`icmpv6` pointers, which all point at the same place. */
  datatype Packet = Packet(
    buf: seq<byte>,
    tstamp: Timespec,
    ipType: int,
    ip: Option<nat>,
    sub: Option<nat>,
    payload: Option<nat>)

  /** Why building a packet stops. */
  datatype Fault =
    | OutOfMemory                 // malloc returned NULL (fatal in the C)
    | OutOfBounds(offset: nat)    // a header byte the C reads lies past the end
    | VersionMismatch(version: byte) // assert(ip_v == 4) fails
    | TcpNotSniffed               // LOG_FATAL: TCP is never sniffed
    | UnknownProtocol(proto: byte)   // LOG_FATAL: unknown IP protocol

  /** The version nibble of the first IP header byte. */
  function Version(b: byte): byte {
    b >> 4
  }

  /** The Internet Header Length nibble, in 32-bit words. */
  function Ihl(b: byte): byte {
    b & 0x0F
  }

  /** Length of the ICMP header for a message type: the table the C uses to
      find where the ICMP payload starts. Every type, known or not, has an
      entry; unlisted types fall back to the echo length. */
  function IcmpHeaderLen(icmpType: byte): (n: nat)
    ensures icmpType == IcmpUnreach ==> n == IcmpUnreachHeaderLen
    ensures icmpType == IcmpRedirect ==> n == IcmpRedirectHeaderLen
    ensures icmpType == IcmpTimeExceeded ==> n == IcmpTimeExceededHeaderLen
    ensures icmpType in {IcmpTimestamp, IcmpTimestampReply} ==> n == IcmpTimestampHeaderLen
    ensures icmpType in {IcmpMaskRequest, IcmpMaskReply} ==> n == IcmpMaskHeaderLen
    ensures icmpType !in {IcmpUnreach, IcmpRedirect, IcmpTimeExceeded, IcmpTimestamp,
                          IcmpTimestampReply, IcmpMaskRequest, IcmpMaskReply} ==>
              n == IcmpEchoHeaderLen
    ensures icmpType in {IcmpInfoRequest, IcmpInfoReply, IcmpParamProblem, IcmpRouterAdvert,
                         IcmpRouterSolicit, IcmpSourceQuench, IcmpEcho, IcmpEchoReply} ==>
              n == IcmpEchoHeaderLen
    ensures IcmpEchoHeaderLen <= n
  {
    if icmpType == IcmpUnreach then IcmpUnreachHeaderLen
    else if icmpType == IcmpRedirect then IcmpRedirectHeaderLen
    else if icmpType == IcmpTimeExceeded then IcmpTimeExceededHeaderLen
    else if icmpType == IcmpTimestamp || icmpType == IcmpTimestampReply then IcmpTimestampHeaderLen
    else if icmpType == IcmpMaskRequest || icmpType == IcmpMaskReply then IcmpMaskHeaderLen
    else IcmpEchoHeaderLen
  }

  /** Copies `bytes` into a new packet with no views and a zero timestamp.
      `allocOk` stands for whether malloc succeeds. */
  function Create(bytes: seq<byte>, ipType: int, allocOk: bool): (r: Result<Packet, Fault>)
    ensures r.Success? <==> allocOk
    ensures r.Failure? ==> r.error == OutOfMemory
    ensures r.Success? ==>
              && |r.value.buf| == |bytes|
              && (forall i :: 0 <= i < |bytes| ==> r.value.buf[i] == bytes[i])
              && r.value.tstamp == ZeroTime
              && r.value.ipType == ipType
              && r.value.ip.None? && r.value.sub.None? && r.value.payload.None?
  {
    if !allocOk then Failure(OutOfMemory)
    else Success(Packet(bytes, ZeroTime, ipType, None, None, None))
  }

  /** Offset of the IPv4 sub-header: IHL 32-bit words past the IP header. */
  function Ipv4SubOffset(buf: seq<byte>, ipoffset: nat): nat
    requires ipoffset < |buf|
  {
    ipoffset + 4 * (Ihl(buf[ipoffset]) as nat)
  }

  /** Whether the IPv4 path succeeds: every byte it reads is inside the
      buffer, the version is 4, and the protocol is ICMP or UDP. */
  predicate Ipv4Accepts(buf: seq<byte>, ipoffset: nat) {
    && ipoffset + Ipv4ProtocolAt < |buf|
    && Version(buf[ipoffset]) == 4
    && (|| buf[ipoffset + Ipv4ProtocolAt] == ProtoUdp
        || (buf[ipoffset + Ipv4ProtocolAt] == ProtoIcmp
            && Ipv4SubOffset(buf, ipoffset) + IcmpTypeAt < |buf|))
  }

  /** The IPv4 branch of packet_fill. */
  function FillIpv4(pkt: Packet, ipoffset: nat): (r: Result<Packet, Fault>)
    ensures r.Success? <==> Ipv4Accepts(pkt.buf, ipoffset)
    ensures r.Success? ==>
              var buf := pkt.buf;
              var sub := Ipv4SubOffset(buf, ipoffset);
              && r.value == pkt.(ipType := 4, ip := Some(ipoffset), sub := Some(sub),
                                 payload := r.value.payload)
              && r.value.payload.Some?
              && ipoffset <= sub < r.value.payload.value
              && (buf[ipoffset + Ipv4ProtocolAt] == ProtoIcmp ==>
                    r.value.payload.value == sub + IcmpHeaderLen(buf[sub + IcmpTypeAt]))
              && (buf[ipoffset + Ipv4ProtocolAt] == ProtoUdp ==>
                    r.value.payload.value == sub + UdpHeaderLen)
    ensures r.Failure? && r.error.OutOfBounds? ==> r.error.offset >= |pkt.buf|
    ensures ipoffset + Ipv4VersionIhlAt >= |pkt.buf| ==>
              r == Failure(OutOfBounds(ipoffset + Ipv4VersionIhlAt))
    ensures ipoffset < |pkt.buf| <= ipoffset + Ipv4ProtocolAt && Version(pkt.buf[ipoffset]) == 4 ==>
              r == Failure(OutOfBounds(ipoffset + Ipv4ProtocolAt))
    ensures && ipoffset + Ipv4ProtocolAt < |pkt.buf| && Version(pkt.buf[ipoffset]) == 4
            && pkt.buf[ipoffset + Ipv4ProtocolAt] == ProtoIcmp
            && Ipv4SubOffset(pkt.buf, ipoffset) + IcmpTypeAt >= |pkt.buf| ==>
              r == Failure(OutOfBounds(Ipv4SubOffset(pkt.buf, ipoffset) + IcmpTypeAt))
    ensures ipoffset < |pkt.buf| && Version(pkt.buf[ipoffset]) != 4 ==>
              r == Failure(VersionMismatch(Version(pkt.buf[ipoffset])))
    ensures ipoffset + Ipv4ProtocolAt < |pkt.buf| && Version(pkt.buf[ipoffset]) == 4 ==>
              && (pkt.buf[ipoffset + Ipv4ProtocolAt] == ProtoTcp ==> r == Failure(TcpNotSniffed))
              && (pkt.buf[ipoffset + Ipv4ProtocolAt] !in {ProtoIcmp, ProtoUdp, ProtoTcp} ==>
                    r == Failure(UnknownProtocol(pkt.buf[ipoffset + Ipv4ProtocolAt])))
  {
    var buf := pkt.buf;
    if ipoffset + Ipv4VersionIhlAt >= |buf| then Failure(OutOfBounds(ipoffset + Ipv4VersionIhlAt))
    else if Version(buf[ipoffset]) != 4 then Failure(VersionMismatch(Version(buf[ipoffset])))
    else
      var sub := Ipv4SubOffset(buf, ipoffset);
      if ipoffset + Ipv4ProtocolAt >= |buf| then Failure(OutOfBounds(ipoffset + Ipv4ProtocolAt))
      else
        var proto := buf[ipoffset + Ipv4ProtocolAt];
        var views := pkt.(ipType := 4, ip := Some(ipoffset), sub := Some(sub));
        if proto == ProtoIcmp then
          if sub + IcmpTypeAt >= |buf| then Failure(OutOfBounds(sub + IcmpTypeAt))
          else Success(views.(payload := Some(sub + IcmpHeaderLen(buf[sub + IcmpTypeAt]))))
        else if proto == ProtoUdp then Success(views.(payload := Some(sub + UdpHeaderLen)))
        else if proto == ProtoTcp then Failure(TcpNotSniffed)
        else Failure(UnknownProtocol(proto))
  }

  /** The IPv6 branch of packet_fill, as written: no version check, and the
      sub-header placed 4 * (hop limit) bytes past the IP header. The
      payload view is left as it was. */
  function FillIpv6(pkt: Packet, ipoffset: nat): (r: Result<Packet, Fault>)
    ensures r.Success? <==> ipoffset + Ipv6HopLimitAt < |pkt.buf|
    ensures r.Failure? ==> r.error == OutOfBounds(ipoffset + Ipv6HopLimitAt)
    ensures r.Success? ==>
              && r.value.buf == pkt.buf && r.value.tstamp == pkt.tstamp
              && r.value.ipType == 6
              && r.value.ip == Some(ipoffset)
              && r.value.sub == Some(ipoffset + 4 * (pkt.buf[ipoffset + Ipv6HopLimitAt] as nat))
              && r.value.payload == pkt.payload
  {
    if ipoffset + Ipv6HopLimitAt >= |pkt.buf| then Failure(OutOfBounds(ipoffset + Ipv6HopLimitAt))
    else
      var hopLimit := pkt.buf[ipoffset + Ipv6HopLimitAt];
      Success(pkt.(ipType := 6, ip := Some(ipoffset), sub := Some(ipoffset + 4 * (hopLimit as nat))))
  }

  /** packet_fill: dispatch on the IP version. Any other version leaves the
      packet without views. */
  function Fill(pkt: Packet, ipoffset: nat, ipType: int): (r: Result<Packet, Fault>)
    ensures ipType == 4 ==> r == FillIpv4(pkt, ipoffset)
    ensures ipType == 6 ==> r == FillIpv6(pkt, ipoffset)
    ensures ipType != 4 && ipType != 6 ==> r == Success(pkt)
    ensures r.Success? ==> r.value.buf == pkt.buf && r.value.tstamp == pkt.tstamp
  {
    if ipType == 4 then FillIpv4(pkt, ipoffset)
    else if ipType == 6 then FillIpv6(pkt, ipoffset)
    else Success(pkt)
  }

  /** Builds a packet from a buffer and parses it with the IP header at
      `ipoffset`: the shared body of the two public constructors. */
  function CreateAt(bytes: seq<byte>, ipoffset: nat, ipType: int, allocOk: bool): Result<Packet, Fault>
  {
    var pkt :- Create(bytes, ipType, allocOk);
    Fill(pkt, ipoffset, ipType)
  }

  /** packet_create_eth: the frame starts with an Ethernet header. */
  function CreateEth(frame: seq<byte>, ipType: int, allocOk: bool): (r: Result<Packet, Fault>)
    ensures !allocOk ==> r == Failure(OutOfMemory)
    ensures allocOk ==>
              r == Fill(Packet(frame, ZeroTime, ipType, None, None, None), EthHeaderLen, ipType)
  {
    CreateAt(frame, EthHeaderLen, ipType, allocOk)
  }

  /** packet_create_ip: the buffer starts with the IP header. */
  function CreateIp(datagram: seq<byte>, ipType: int, allocOk: bool): (r: Result<Packet, Fault>)
    ensures !allocOk ==> r == Failure(OutOfMemory)
    ensures allocOk ==>
              r == Fill(Packet(datagram, ZeroTime, ipType, None, None, None), 0, ipType)
  {
    CreateAt(datagram, 0, ipType, allocOk)
  }

  /** packet_clone: a fresh copy of the bytes carrying the original's
      timestamp, IP version and view offsets. */
  function Clone(orig: Packet, allocOk: bool): (r: Result<Packet, Fault>)
    ensures !allocOk ==> r == Failure(OutOfMemory)
    ensures allocOk ==> r.Success? && r.value == orig
  {
    var pkt :- Create(orig.buf, orig.ipType, allocOk);
    Success(pkt.(tstamp := orig.tstamp, ipType := orig.ipType,
                 ip := orig.ip, sub := orig.sub, payload := orig.payload))
  }
}
