/** Properties of the packet view parser that relate several calls: the
    Ethernet and IP constructors agree up to the link-layer offset, the
    IPv6 path behaves as written, and a well-formed IPv4 frame built from
    its parts parses back to the offsets it was built with. */
module PacketProperties {
  import opened Wrappers
  import opened Packet

  /** Moves a view `n` bytes further into the buffer. */
  function Shift(view: Option<nat>, n: nat): Option<nat> {
    if view.Some? then Some(view.value + n) else None
  }

  /** What a parse result becomes when `link` is put in front of the
      buffer: the bytes gain the prefix, every view and every reported
      out-of-bounds offset moves by `|link|`, other faults stay. */
  function Rebase(r: Result<Packet, Fault>, link: seq<byte>): Result<Packet, Fault> {
    match r
    case Success(p) =>
      Success(p.(buf := link + p.buf, ip := Shift(p.ip, |link|),
                 sub := Shift(p.sub, |link|), payload := Shift(p.payload, |link|)))
    case Failure(OutOfBounds(k)) => Failure(OutOfBounds(k + |link|))
    case Failure(e) => Failure(e)
  }

  /** The IPv4 branch reads only bytes at or after the IP header, so a
      prefix moves its result and nothing else. */
  lemma LinkPrefixShiftsIpv4(link: seq<byte>, datagram: seq<byte>, ipType: int)
    ensures FillIpv4(Packet(link + datagram, ZeroTime, ipType, None, None, None), |link|)
         == Rebase(FillIpv4(Packet(datagram, ZeroTime, ipType, None, None, None), 0), link)
  {
  }

  /** The IPv6 branch likewise reads only the hop-limit byte. */
  lemma LinkPrefixShiftsIpv6(link: seq<byte>, datagram: seq<byte>, ipType: int)
    ensures FillIpv6(Packet(link + datagram, ZeroTime, ipType, None, None, None), |link|)
         == Rebase(FillIpv6(Packet(datagram, ZeroTime, ipType, None, None, None), 0), link)
  {
  }

  /** Parsing `link + datagram` with the IP header at `|link|` gives the
      parse of `datagram` at offset 0, moved by `|link|`: the link-layer
      bytes are never read. */
  lemma LinkPrefixShiftsParse(link: seq<byte>, datagram: seq<byte>, ipType: int, allocOk: bool)
    ensures CreateAt(link + datagram, |link|, ipType, allocOk)
         == Rebase(CreateAt(datagram, 0, ipType, allocOk), link)
  {
  }

  /** packet_create_eth is packet_create_ip on the bytes after the
      Ethernet header, with every view moved by the Ethernet header length. */
  lemma EthIsIpAfterEthernetHeader(eth: seq<byte>, datagram: seq<byte>, ipType: int, allocOk: bool)
    requires |eth| == EthHeaderLen
    ensures CreateEth(eth + datagram, ipType, allocOk)
         == Rebase(CreateIp(datagram, ipType, allocOk), eth)
  {
  }

  /** The IPv6 path never looks at the version nibble: overwriting the
      first header byte changes nothing but that byte. */
  lemma Ipv6IgnoresVersion(pkt: Packet, ipoffset: nat, first: byte)
    requires ipoffset < |pkt.buf|
    ensures var r := FillIpv6(pkt, ipoffset);
            var r' := FillIpv6(pkt.(buf := pkt.buf[ipoffset := first]), ipoffset);
            && r'.Success? == r.Success?
            && (r.Success? ==>
                  r'.value == r.value.(buf := pkt.buf[ipoffset := first]))
  {
  }

  /** The IPv6 sub-header lands right after a fixed 40-byte header (section
      3 of RFC 8200) only when the hop-limit byte happens to be 10: the
      offset follows the hop limit, as written. */
  lemma Ipv6SubHeaderFollowsHopLimit(pkt: Packet, ipoffset: nat)
    requires ipoffset + Ipv6HopLimitAt < |pkt.buf|
    ensures var r := FillIpv6(pkt, ipoffset);
            r.Success? && (r.value.sub == Some(ipoffset + 40) <==> pkt.buf[ipoffset + Ipv6HopLimitAt] == 10)
  {
  }

  /** `n` zero bytes. */
  function Zeros(n: nat): (z: seq<byte>)
    ensures |z| == n
    ensures forall i :: 0 <= i < n ==> z[i] == 0
  {
    seq(n, _ => 0)
  }

  /** A minimal IPv4 header of `ihl` words carrying `proto` (section 3.1 of
      RFC 791): version 4, the given IHL, the protocol byte, zeros
      elsewhere. */
  function Ipv4Header(ihl: nat, proto: byte): (h: seq<byte>)
    requires 5 <= ihl <= 15
    ensures |h| == 4 * ihl
    ensures Version(h[Ipv4VersionIhlAt]) == 4 && Ihl(h[Ipv4VersionIhlAt]) as nat == ihl
    ensures h[Ipv4ProtocolAt] == proto
  {
    [0x40 | (ihl as byte)] + Zeros(Ipv4ProtocolAt - 1) + [proto] + Zeros(4 * ihl - Ipv4ProtocolAt - 1)
  }

  /** Building an IPv4/ICMP datagram and parsing it gives back the header
      boundaries: the sub-header right after the IHL words, the payload
      after the table length for the ICMP type. */
  lemma IcmpDatagramRoundTrip(ihl: nat, icmp: seq<byte>)
    requires 5 <= ihl <= 15
    requires 0 < |icmp|
    ensures var r := CreateIp(Ipv4Header(ihl, ProtoIcmp) + icmp, 4, true);
            && r.Success?
            && r.value.buf == Ipv4Header(ihl, ProtoIcmp) + icmp
            && r.value.ip == Some(0)
            && r.value.sub == Some(4 * ihl)
            && r.value.payload == Some(4 * ihl + IcmpHeaderLen(icmp[0]))
  {
  }

  /** The same for IPv4/UDP: the payload starts a UDP header past the
      sub-header, whatever follows the IP header. */
  lemma UdpDatagramRoundTrip(ihl: nat, udp: seq<byte>)
    requires 5 <= ihl <= 15
    ensures var r := CreateIp(Ipv4Header(ihl, ProtoUdp) + udp, 4, true);
            && r.Success?
            && r.value.ip == Some(0)
            && r.value.sub == Some(4 * ihl)
            && r.value.payload == Some(4 * ihl + UdpHeaderLen)
  {
  }

  /** A successful parse does not mean the views lie inside the buffer:
      the sub-header and payload offsets come from header arithmetic, and
      the bytes behind them are never read. A 10-byte prefix of an IPv4/UDP
      header, protocol byte included, parses with the sub-header at 20 and
      the payload at 28. */
  lemma ViewsMayPassBufferEnd()
    ensures var r := CreateIp(Ipv4Header(5, ProtoUdp)[..10], 4, true);
            && r.Success? && |r.value.buf| == 10
            && r.value.sub == Some(20) && r.value.payload == Some(28)
  {
  }

  /** The same for every bare IPv4/UDP header: the parse succeeds with the
      payload past the end of the buffer. */
  lemma UdpPayloadMayPassBufferEnd(ihl: nat)
    requires 5 <= ihl <= 15
    ensures var r := CreateIp(Ipv4Header(ihl, ProtoUdp), 4, true);
            && r.Success? && r.value.payload.Some? && r.value.payload.value > |r.value.buf|
  {
  }

  /** A TCP datagram never gets views: the receive path does not expect it. */
  lemma TcpDatagramIsFatal(ihl: nat, tcp: seq<byte>)
    requires 5 <= ihl <= 15
    ensures CreateIp(Ipv4Header(ihl, ProtoTcp) + tcp, 4, true) == Failure(TcpNotSniffed)
  {
  }

  /** The same ICMP datagram behind an Ethernet header parses to the same
      boundaries, each moved by the Ethernet header length. */
  lemma IcmpFrameRoundTrip(eth: seq<byte>, ihl: nat, icmp: seq<byte>)
    requires |eth| == EthHeaderLen
    requires 5 <= ihl <= 15
    requires 0 < |icmp|
    ensures var r := CreateEth(eth + Ipv4Header(ihl, ProtoIcmp) + icmp, 4, true);
            && r.Success?
            && r.value.ip == Some(EthHeaderLen)
            && r.value.sub == Some(EthHeaderLen + 4 * ihl)
            && r.value.payload == Some(EthHeaderLen + 4 * ihl + IcmpHeaderLen(icmp[0]))
  {
  }
}
