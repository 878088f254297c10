/** The probe query: one request/response transaction toward a destination
    with a given TTL and flow identity. The two unions of the C record
    become tagged variants: the network-layer identity is either the IPv4
    IP id or the IPv6 traffic class and flow label, and the transport
    identity is either the TCP header fields or the ICMP id. */
module ConfirmQuery {
  import opened Wrappers
  import Packet

  /** A socket address tagged with its family (`sa_family`). */
  datatype SockAddr = Inet(addr4: seq<bv8>) | Inet6(addr6: seq<bv8>)

  /** The three kinds of probe the constructors build. */
  datatype ProbeType = Icmp4 | Icmp6 | Tcp6

  /** Network-layer identity. The reverse flow id is IPv4-only and lives
      with the IP id that carries it. */
  datatype NetId =
    | Ipv4Net(ipid: bv16, revflow: bv8)
    | Ipv6Net(trafficClass: bv8, flowLabel: bv32)

  /** Transport-layer identity. */
  datatype TransportId =
    | TcpFields(srcPort: bv16, dstPort: bv16, ackNumber: bv32,
                controlFlags: bv8, window: bv16, urgentPointer: bv16)
    | IcmpFields(icmpid: bv16)

  /** The query record. The caller fills the identity fields; `trynum`,
      `ip` and `response` are the answer fields. */
  datatype Query = Query(
    probeType: ProbeType,
    src: SockAddr,
    dst: SockAddr,
    ttl: bv8,
    net: NetId,
    transport: TransportId,
    flowid: bv8,
    padding: nat,
    ntries: nat,
    trynum: int,
    ip: Option<SockAddr>,
    response: Option<Packet.Packet>)

  /** The probe type agrees with the variants it selects: an IPv4 ICMP
      query has an IP id and an ICMP id, an IPv6 ICMP query a flow label
      and an ICMP id, an IPv6 TCP query a flow label and TCP fields. */
  function KindConsistent(q: Query): (ok: bool)
    ensures ok <==> (q.net.Ipv4Net? <==> q.probeType == Icmp4)
                    && (q.transport.TcpFields? <==> q.probeType == Tcp6)
  {
    match q.probeType
    case Icmp4 => q.net.Ipv4Net? && q.transport.IcmpFields?
    case Icmp6 => q.net.Ipv6Net? && q.transport.IcmpFields?
    case Tcp6 => q.net.Ipv6Net? && q.transport.TcpFields?
  }

  /** A query nobody has answered or retried yet. */
  predicate Unsent(q: Query) {
    q.trynum == 0 && q.ip.None? && q.response.None?
  }

  /** confirm_query_create4. `ntries` and `padding` are filled by the caller
      after construction in the C; here they are arguments. */
  function Create4(src: SockAddr, dst: SockAddr, ttl: bv8, ipid: bv16, icmpid: bv16,
                   flowid: bv8, revflow: bv8, ntries: nat, padding: nat): (q: Query)
    ensures KindConsistent(q) && q.probeType == Icmp4 && Unsent(q)
    ensures q.net.ipid == ipid && q.net.revflow == revflow
    ensures q.transport.icmpid == icmpid
    ensures q.src == src && q.dst == dst && q.ttl == ttl && q.flowid == flowid
    ensures q.ntries == ntries && q.padding == padding
  {
    Query(Icmp4, src, dst, ttl, Ipv4Net(ipid, revflow), IcmpFields(icmpid),
          flowid, padding, ntries, 0, None, None)
  }

  /** confirm_query_create6_icmp. */
  function Create6Icmp(src: SockAddr, dst: SockAddr, ttl: bv8, trafficClass: bv8,
                       flowLabel: bv32, icmpid: bv16, flowid: bv8,
                       ntries: nat, padding: nat): (q: Query)
    ensures KindConsistent(q) && q.probeType == Icmp6 && Unsent(q)
    ensures q.net.trafficClass == trafficClass && q.net.flowLabel == flowLabel
    ensures q.transport.icmpid == icmpid
    ensures q.src == src && q.dst == dst && q.ttl == ttl && q.flowid == flowid
    ensures q.ntries == ntries && q.padding == padding
  {
    Query(Icmp6, src, dst, ttl, Ipv6Net(trafficClass, flowLabel), IcmpFields(icmpid),
          flowid, padding, ntries, 0, None, None)
  }

  /** confirm_query_create6_tcp. */
  function Create6Tcp(src: SockAddr, dst: SockAddr, ttl: bv8, trafficClass: bv8,
                      flowLabel: bv32, flowid: bv8, srcPort: bv16, dstPort: bv16,
                      ackNumber: bv32, controlFlags: bv8, window: bv16,
                      urgentPointer: bv16, ntries: nat, padding: nat): (q: Query)
    ensures KindConsistent(q) && q.probeType == Tcp6 && Unsent(q)
    ensures q.net.trafficClass == trafficClass && q.net.flowLabel == flowLabel
    ensures q.transport == TcpFields(srcPort, dstPort, ackNumber, controlFlags, window, urgentPointer)
    ensures q.src == src && q.dst == dst && q.ttl == ttl && q.flowid == flowid
    ensures q.ntries == ntries && q.padding == padding
  {
    Query(Tcp6, src, dst, ttl, Ipv6Net(trafficClass, flowLabel),
          TcpFields(srcPort, dstPort, ackNumber, controlFlags, window, urgentPointer),
          flowid, padding, ntries, 0, None, None)
  }

  /** Network-layer identity with the IP id removed. */
  datatype NetKey = Ipv4Key(revflow: bv8) | Ipv6Key(trafficClass: bv8, flowLabel: bv32)

  /** The fields that identify a query when matching answers. */
  datatype IdentityKey = IdentityKey(
    probeType: ProbeType, src: SockAddr, dst: SockAddr, ttl: bv8,
    net: NetKey, transport: TransportId, flowid: bv8)

  /** The network identity a comparison sees: the IP id is left out
      because echo replies do not return it. */
  function NetKeyOf(net: NetId): (k: NetKey)
    ensures k.Ipv4Key? <==> net.Ipv4Net?
    ensures net.Ipv4Net? ==> k == Ipv4Key(net.revflow)
    ensures net.Ipv6Net? ==> k == Ipv6Key(net.trafficClass, net.flowLabel)
  {
    match net
    case Ipv4Net(_, revflow) => Ipv4Key(revflow)
    case Ipv6Net(tc, fl) => Ipv6Key(tc, fl)
  }

  /** The identity of a query. */
  function Identity(q: Query): (k: IdentityKey)
    ensures k.probeType == q.probeType && k.src == q.src && k.dst == q.dst && k.ttl == q.ttl
    ensures k.transport == q.transport && k.flowid == q.flowid
    ensures k.net == NetKeyOf(q.net)
  {
    IdentityKey(q.probeType, q.src, q.dst, q.ttl, NetKeyOf(q.net), q.transport, q.flowid)
  }

  /** Field by field, what an identity comparison requires: everything the
      caller fills in except the IP id, the padding and `ntries` (the
      padding says how a probe is built and `ntries` how often it is sent,
      not which probe it is). */
  predicate AgreeExceptIpid(a: Query, b: Query) {
    && a.probeType == b.probeType && a.src == b.src && a.dst == b.dst && a.ttl == b.ttl
    && a.flowid == b.flowid && a.transport == b.transport
    && a.net.Ipv4Net? == b.net.Ipv4Net?
    && (a.net.Ipv4Net? ==> a.net.revflow == b.net.revflow)
    && (a.net.Ipv6Net? ==> a.net == b.net)
  }

  /** Two queries identify the same probe (confirm_query_cmp returns 0):
      exactly when they agree on every identifying field but the IP id. */
  function SameProbe(a: Query, b: Query): (same: bool)
    ensures same <==> AgreeExceptIpid(a, b)
  {
    Identity(a) == Identity(b)
  }

  /** Replaces the IP id of an IPv4 query. */
  function WithIpid(q: Query, ipid: bv16): (q': Query)
    requires q.net.Ipv4Net?
    ensures q'.net.Ipv4Net? && q'.net.ipid == ipid
    ensures q'.net.revflow == q.net.revflow
    ensures q' == q.(net := Ipv4Net(ipid, q.net.revflow))
  {
    q.(net := q.net.(ipid := ipid))
  }

  /** Queries that differ only in the IP id are the same probe. */
  lemma IpidIgnored(q: Query, ipid: bv16)
    requires q.net.Ipv4Net?
    ensures SameProbe(q, WithIpid(q, ipid))
  {
  }

  /** Changing the flowid gives a different probe: it is part of identity. */
  lemma FlowidDistinguishes(q: Query, flowid: bv8)
    requires flowid != q.flowid
    ensures !SameProbe(q, q.(flowid := flowid))
  {
  }

  /** The probe header fields that carry a flow id. */
  datatype HeaderField = IcmpChecksum | TcpSequenceNumber | IpIdentification

  /** The flowid travels in the ICMP checksum of ICMP probes, where it is
      the flow identification, and in the TCP sequence number of TCP
      probes, where it only numbers the probe for matching. */
  function FlowIdCarrier(q: Query): (f: HeaderField)
    ensures f == IcmpChecksum <==> q.transport.IcmpFields?
    ensures f == TcpSequenceNumber <==> q.transport.TcpFields?
    ensures f != IpIdentification
  {
    match q.transport
    case IcmpFields(_) => IcmpChecksum
    case TcpFields(_, _, _, _, _, _) => TcpSequenceNumber
  }

  /** Each constructor fixes the flowid carrier. */
  lemma ConstructorsFixFlowIdCarrier(q: Query)
    requires KindConsistent(q)
    ensures FlowIdCarrier(q) == IcmpChecksum <==> q.probeType in {Icmp4, Icmp6}
    ensures FlowIdCarrier(q) == TcpSequenceNumber <==> q.probeType == Tcp6
  {
  }

  /** The reverse flow id travels in the IP identification field, so only
      IPv4 queries carry one; an IPv6 query has no field for it. */
  function ReverseFlowCarrier(q: Query): (f: Option<HeaderField>)
    ensures f == Some(IpIdentification) <==> q.net.Ipv4Net?
    ensures f == None <==> q.net.Ipv6Net?
  {
    match q.net
    case Ipv4Net(_, _) => Some(IpIdentification)
    case Ipv6Net(_, _) => None
  }

  /** For a consistent query, the reverse flow id has a carrier exactly for
      IPv4 ICMP probes, and it never shares a field with the flowid. */
  lemma ReverseFlowCarrierIsIpId(q: Query)
    requires KindConsistent(q)
    ensures ReverseFlowCarrier(q).Some? <==> q.probeType == Icmp4
    ensures ReverseFlowCarrier(q) != Some(FlowIdCarrier(q))
  {
  }

  /** An ICMP id of 0 fixes the reverse flow id to `revflow`; otherwise the
      header fixes none. Only IPv4 queries have a reverse flow id. */
  function FixedReverseFlow(q: Query): (r: Option<bv8>)
    ensures r.Some? <==> q.net.Ipv4Net? && q.transport.IcmpFields? && q.transport.icmpid == 0
    ensures r.Some? ==> r.value == q.net.revflow
  {
    if q.net.Ipv4Net? && q.transport.IcmpFields? && q.transport.icmpid == 0
    then Some(q.net.revflow)
    else None
  }

  /** A fixed reverse flow id belongs to an IPv4 ICMP query with ICMP id 0,
      and is its `revflow`. */
  lemma ReverseFlowIsIpv4Only(q: Query)
    requires KindConsistent(q)
    ensures FixedReverseFlow(q).Some? <==> q.probeType == Icmp4 && q.transport.icmpid == 0
    ensures FixedReverseFlow(q).Some? ==> FixedReverseFlow(q).value == q.net.revflow
  {
  }
}
