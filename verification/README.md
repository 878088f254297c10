# Probe packet views and probe queries

This project models two parts of the confirmation engine of a
traceroute-style path-measurement library (netlib):

- **The packet view parser** (`packet.c`). A packet owns a copy of a
  captured frame and records where the IP header, the ICMP/UDP sub-header
  and the payload start. The C code casts pointers into the buffer; the
  model keeps natural-number offsets into an immutable `seq<bv8>`
  (`Packet.Packet`). The IPv4 path checks the version nibble, puts the
  sub-header `4 * IHL` bytes past the IP header (section 3.1 of RFC 791),
  branches on the Protocol byte, and for ICMP finds the payload through a
  total header-length table keyed by ICMP type. The IPv6 path is modelled
  as written: no version check, and the sub-header placed `4 *` the byte
  libnet's `libnet_ipv6_hdr` names `ip_hl`. That byte is the hop limit, so
  this differs from the fixed 40-byte header of section 3 of RFC 8200
  (`PacketProperties.Ipv6SubHeaderFollowsHopLimit` states exactly when
  the two agree). No payload is computed for IPv6.
- **The probe query record** (`confirm.h`). Its two unions become tagged
  variants (`ConfirmQuery.NetId`, `ConfirmQuery.TransportId`). The model
  states what the header's comments promise: the identity comparison
  leaves out the IP id; where the flowid travels; that the reverse flow id
  is IPv4-only and is fixed by ICMP id 0; and the encoding of the "no
  answer" outcome. The outcome is a small state machine
  (`QueryLifecycle`): Pending, then Answered or Exhausted, with one
  callback at the single completion event.

The C code reads header bytes without checking the buffer length. The
model makes every such read explicit and reports a read past the end as
`OutOfBounds(offset)`. That bound is the model's obligation; the C does
not enforce it. Views the C only computes and never reads through are not
bounded either: a successful parse can leave the sub-header or payload
view past the end of the buffer (`PacketProperties.ViewsMayPassBufferEnd`),
so the views do not always stay within the buffer length. A failed `assert(ip_v == 4)` becomes `VersionMismatch`.
The `LOG_FATAL` paths for TCP and unknown protocols become `TcpNotSniffed`
and `UnknownProtocol`. A failed `malloc` becomes `OutOfMemory`; whether
allocation succeeds is the `allocOk` parameter.

Files: `wrappers.dfy` (Option, Result), `packet.dfy` (module `Packet`),
`packet_properties.dfy` (module `PacketProperties`), `confirm_query.dfy`
(module `ConfirmQuery`), `query_lifecycle.dfy` (module `QueryLifecycle`).

Reading choices where the source is silent:

- `packet.h` is not part of this model. The C sets `pkt->icmp` and then
  reads `pkt->udp` for UDP without ever assigning it, so the model reads
  `icmp`, `udp` and `icmpv6` as one field (a union), the single `sub` view.
  Likewise `ip` and `ipv6` become the single `ip` view, read as IPv4 or
  IPv6 according to `ipType`.
- libnet's headers are not part of this model. Its constants are declared
  by name: Ethernet 14, UDP 8, and ICMPv4 header lengths 8 for echo,
  unreachable, redirect and time-exceeded, 20 for timestamp and 12 for
  mask. So several ICMP types share a length.
- `confirm.c` is not part of this model. Its starting attempt counter is
  taken to be 0, counting up by one per timeout. That is the reading under
  which `trynum == ntries + 1` marks the end after `ntries`
  retransmissions.
- The identity key (`ConfirmQuery.Identity`) holds every field the caller
  fills in except the IP id, the padding and `ntries`. The header only promises that
  the IP id is excluded; the rest of `confirm_query_cmp` is in `confirm.c`.

## Model

| member | source | states |
|---|---|---|
| Packet.IcmpHeaderLen | packet.c:173-202 | The ICMP header-length table is total: unreachable, redirect and time-exceeded map to their own lengths, timestamp request/reply to the timestamp length, mask request/reply to the mask length, the explicit echo-length cases (information request/reply, parameter problem, router advertisement/solicitation, source quench, echo, echo reply) and every other type (unknown ones included) to the echo length; no entry is shorter than the echo header. |
| Packet.Create | packet.c:146-158 | A new packet holds an exact copy of the input (same length, same bytes), the given IP version and a zero timestamp, with no views; it fails with OutOfMemory exactly when allocation fails. |
| Packet.FillIpv4 | packet.c:162-216 | The IPv4 parse succeeds exactly when every byte it reads is inside the buffer, the version nibble is 4 and the protocol is ICMP or UDP. Then the IP view is the given offset, the sub-header is 4*IHL bytes further, the payload follows the ICMP table length or the UDP header, so ip <= sub < payload, and the bytes and timestamp are untouched. Each read past the end (version byte, protocol byte, ICMP type byte) is reported as OutOfBounds at that offset, and only such reads are; a wrong version, TCP and an unknown protocol each give their own fault. |
| Packet.FillIpv6 | packet.c:217-223 | The IPv6 parse checks no version. It fails only when the hop-limit byte is past the end. Otherwise the IP view is the given offset, the sub-header is 4*(hop limit) bytes further, and the payload view is left as it was. |
| Packet.Fill | packet.c:160-273 | Dispatches on the IP version: 4 and 6 take their paths, any other version leaves the packet without new views; a parse never changes the bytes or the timestamp. |
| Packet.CreateEth | packet.c:12-17 | The Ethernet constructor copies the frame and parses with the IP header at offset 14. |
| Packet.CreateIp | packet.c:19-24 | The IP constructor copies the datagram and parses with the IP header at offset 0. |
| Packet.Clone | packet.c:26-36 | A clone has the original's bytes, length, IP version, timestamp and identical view offsets; it fails only when allocation fails. |
| PacketProperties.LinkPrefixShiftsIpv4 | packet.c:162-216 | The IPv4 parse reads nothing before the IP header: prefixing the buffer moves every view and reported offset by the prefix length and changes nothing else. |
| PacketProperties.LinkPrefixShiftsIpv6 | packet.c:217-223 | The IPv6 parse likewise moves by the prefix length under a prefix. |
| PacketProperties.LinkPrefixShiftsParse | packet.c:12-24 | Creating a packet from `link + datagram` parsed at `\|link\|` equals creating it from `datagram` parsed at 0, with bytes prefixed and views moved. |
| PacketProperties.EthIsIpAfterEthernetHeader | packet.c:12-24 | The Ethernet and IP constructors differ only in the IP offset: the Ethernet one on a frame equals the IP one on the bytes after the 14-byte Ethernet header, shifted by 14. |
| PacketProperties.Ipv6IgnoresVersion | packet.c:217-223 | Overwriting the version byte of an IPv6 header does not change the IPv6 parse. |
| PacketProperties.Ipv6SubHeaderFollowsHopLimit | packet.c:222-223 | The IPv6 sub-header is 40 bytes past the IP header (the fixed RFC 8200 header length) exactly when the hop-limit byte is 10. |
| PacketProperties.IcmpDatagramRoundTrip | packet.c:164-204 | An IPv4/ICMP datagram built from an IHL and an ICMP message parses back with the IP view at 0, the sub-header at 4*IHL and the payload after the table length of the message's type. |
| PacketProperties.UdpDatagramRoundTrip | packet.c:206-208 | An IPv4/UDP datagram built from an IHL parses back with the sub-header at 4*IHL and the payload 8 bytes further. |
| PacketProperties.ViewsMayPassBufferEnd | packet.c:165-208 | A 10-byte IPv4/UDP buffer with IHL 5 parses successfully with the sub-header view at 20 and the payload view at 28: the views are pointer arithmetic and need not lie inside the buffer. |
| PacketProperties.UdpPayloadMayPassBufferEnd | packet.c:206-208 | For every IHL, a bare IPv4/UDP header with no UDP bytes parses successfully with the payload view past the end of the buffer. |
| PacketProperties.TcpDatagramIsFatal | packet.c:209-211 | A well-formed IPv4/TCP datagram yields no views: the parse fails with TcpNotSniffed. |
| PacketProperties.IcmpFrameRoundTrip | packet.c:12-17 | The same ICMP datagram behind a 14-byte Ethernet header parses back to the same boundaries moved by 14. |
| ConfirmQuery.Create4 | confirm.h:87-94 | The IPv4 constructor yields an ICMPv4 query whose network identity is the IP id with the reverse flow id and whose transport identity is the ICMP id, carrying the given addresses, TTL and flowid, not yet tried or answered. |
| ConfirmQuery.Create6Icmp | confirm.h:96-102 | The IPv6 ICMP constructor yields a query identified by traffic class and flow label and by the ICMP id, not yet tried or answered. |
| ConfirmQuery.Create6Tcp | confirm.h:104-111 | The IPv6 TCP constructor yields a query identified by traffic class and flow label and by the TCP ports, acknowledgment number, flags, window and urgent pointer, not yet tried or answered. |
| ConfirmQuery.KindConsistent | confirm.h:22-44 | For a consistent query the network identity is the IP id exactly for IPv4 ICMP probes, and the transport identity is the TCP fields exactly for TCP probes and the ICMP id otherwise: each union holds exactly one variant. Conversely, every query whose variants match its probe type is consistent, whatever its other fields. |
| ConfirmQuery.NetKeyOf | confirm.h:22-31 | The network identity a comparison sees keeps the IPv4/IPv6 distinction and drops the IP id, which echo replies do not return: the IPv4 key is the revflow, the IPv6 key is the traffic class and flow label. Only dropping the IP id comes from the header; keeping revflow, traffic class and flow label in the key is this model's reading (revflow travels in the IP id, confirm.h:53, so a comparison might equally leave it out). |
| ConfirmQuery.Identity | confirm.h:23-26 | The identity key holds probe type, addresses, TTL, transport fields, flowid and the network identity without the IP id. Only the exclusion of the IP id comes from the header; the rest of the field set is this model's reading. |
| ConfirmQuery.SameProbe | confirm.h:23-26 | Two queries compare equal exactly when they agree on probe type, addresses, TTL, flowid, transport fields and network identity apart from the IP id. |
| ConfirmQuery.WithIpid | confirm.h:26 | Setting the IP id of an IPv4 query changes that field alone: the query stays IPv4 with the same reverse flow id and every other field unchanged. |
| ConfirmQuery.IpidIgnored | confirm.h:23-26 | Queries that differ only in the IP id compare equal. |
| ConfirmQuery.FlowidDistinguishes | confirm.h:46-52 | Queries that differ in flowid compare unequal. |
| ConfirmQuery.FlowIdCarrier | confirm.h:46-52 | The flowid is carried in the ICMP checksum exactly when the transport identity is the ICMP id, and in the TCP sequence number exactly when it is the TCP fields; it never uses the IP identification field. |
| ConfirmQuery.ConstructorsFixFlowIdCarrier | confirm.h:46-52 | The flowid is carried in the ICMP checksum exactly for ICMP probes and in the TCP sequence number exactly for TCP probes. |
| ConfirmQuery.ReverseFlowCarrier | confirm.h:53 | The reverse flow id is carried in the IP identification field exactly when the query is IPv4, and has no carrier exactly when it is IPv6. |
| ConfirmQuery.ReverseFlowCarrierIsIpId | confirm.h:46-53 | For a consistent query the reverse flow id has a carrier exactly for IPv4 ICMP probes, and that carrier is never the field that carries the flowid. |
| ConfirmQuery.FixedReverseFlow | confirm.h:43-53 | A reverse flow id is fixed exactly when the query is IPv4 with ICMP id 0, and it is then the revflow. |
| ConfirmQuery.ReverseFlowIsIpv4Only | confirm.h:43-53 | A reverse flow id is fixed exactly for IPv4 ICMP queries with ICMP id 0, and it is their revflow. |
| QueryLifecycle.StatusOf | confirm.h:62-64 | Decodes the answer fields: Answered has ip set, Exhausted has ip unset with trynum == ntries + 1, and a valid query with ip unset and trynum <= ntries is still pending. |
| QueryLifecycle.Next | confirm.h:4-8 | One event keeps the query valid and its identity unchanged; a completed query ignores every event; the callback fires exactly on the step that leaves Pending; a timeout before the last try retransmits and bumps the attempt counter and nothing else, a timeout at the last try gives up by setting trynum to ntries + 1 and nothing else; an answer sets the responder and response and nothing else. |
| QueryLifecycle.Run | confirm.h:4-8 | Any sequence of events keeps the query valid and its identity unchanged, and changes only the answer fields (trynum, ip, response): padding, ntries and every other caller-filled field stay as submitted. |
| QueryLifecycle.RetransmitsBounded | confirm.h:4-8 | Whatever the events, answered or not, a pending query makes at most ntries - trynum retransmissions (the maximum); each retransmission bumps the attempt counter by one, and the final timeout bumps it once more without retransmitting. |
| QueryLifecycle.CompletedIsFinal | confirm.h:4-8 | After completion, later events (duplicate answers included) change nothing and invoke no callback. |
| QueryLifecycle.CallbackExactlyOnce | confirm.h:4-8 | From a pending query, any events invoke the callback once if an outcome is reached and never otherwise. |
| QueryLifecycle.SilenceExhausts | confirm.h:62-64 | Without an answer, the remaining timeouts retransmit once per try left and end in "no answer": ip unset, trynum == ntries + 1, one callback. |
| QueryLifecycle.FreshQueryExhausts | confirm.h:57-64 | A fresh query that is never answered retransmits ntries times and ends with ip unset and trynum == ntries + 1. |
| QueryLifecycle.NoAnswerAfterAllRetransmissions | confirm.h:62-64 | For any events, a pending query that ends with no answer has made one retransmission per try it had left and ends with ip unset, trynum == ntries + 1 and one callback. |
| QueryLifecycle.AnyEventsComplete | confirm.h:4-8 | Any mix of answers and timeouts at least as long as the tries left brings a pending query to an outcome; with CallbackExactlyOnce, its callback fires once within that many events. |
| QueryLifecycle.ConstructedQueriesArePending | confirm.h:87-111 | A query as the constructors build it is a valid pending query. |

## Left out

- `packet_tostr`: diagnostic text formatting; it affects no other behaviour.
- `packet_destroy`, `malloc`/`free` and logging: memory management and logging. Allocation failure and the fatal log calls appear only as the faults `OutOfMemory`, `TcpNotSniffed` and `UnknownProtocol`.
- The commented-out IPv6 protocol switch and IPv6 formatting code: dead code.
- Packet.Clone: the C copies the original's absolute pointers, so the clone's views point into the original's buffer. The model copies offsets, which is what the clone's own buffer needs. Dangling views after the original is destroyed are not modelled.
- Packet.Clone: the C copies `ip`, `ipv6`, `icmp` and `payload` but never `icmpv6`, which the IPv6 path sets. The model's single `sub` view makes the clone equal the original; that holds in the C for IPv6 packets only if `icmpv6` shares storage with `icmp` in `packet.h`, which is not part of this model.
- The query's `probe` field (the last probe sent): it is set by the encoder in `confirm.c`, which is not part of this model, so the record leaves it out.
- Packet.FillIpv4: offsets are unbounded naturals, so `size_t` wrap-around in the pointer arithmetic is not modelled. With IHL at most 15 it cannot occur for real buffers.
- The bound checks: the C performs none. Every `OutOfBounds` fault marks a read the C would make past the end of the buffer.
- `confirm_create`, `confirm_destroy`, `confirm_submit` and `confirm_query_destroy`: sender, sniffer, timers, the event handle, timestamps and the callback/data pointers are I/O, scheduling and concurrency. The callback appears only as the `Complete` action of a step.
- Probe encoding and reply matching: they live in `confirm.c`, which is not part of this model. A `Reply` event stands for an answer the engine has already matched to the query.
- Transmission failure ending a query early: that behaviour lives in `confirm.c`, not in the header.
- ConfirmQuery.Create4: `ntries` and `padding` are arguments of the model's constructors. In the C the caller fills them after construction. Negative `ntries` (the C field is an `int`) is not modelled.
