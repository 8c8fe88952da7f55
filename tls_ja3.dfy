/**
 * The TLS ClientHello observer: a bounds-checked classifier over an Ethernet
 * frame, a statistics record whose 64-bit counters the hooks increment, and
 * the socket-filter, traffic-control and sockops hooks around it.
 *
 * The host is little-endian (the header bit-fields and `bpf_htons` are read
 * that way); the frame is a sequence of bytes from `data` to `data_end`; the
 * profile map and the PID come in as arguments, and a failed statistics
 * lookup is a `null` statistics record.
 */
module TlsJa3 {
  import opened Bpf


  const EthHeaderLen: nat := 14
  /** `sizeof(struct iphdr)`, without options. */
  const IpHeaderLen: nat := 20
  /** `sizeof(struct tcphdr)`, without options. */
  const TcpHeaderLen: nat := 20
  const TlsRecordLen: nat := 5
  const HandshakeHeaderLen: nat := 4

  const EthPIp: U16 := 0x0800
  const IpProtoTcp: Byte := 6
  const HttpsPort: U16 := 443
  const TlsHandshake: Byte := 0x16
  const TlsClientHello: Byte := 0x01

  const TcActOk: int := 0
  /** A 16-bit field loaded from offset `i` of the frame by a little-endian host. */
  function LoadLe16(f: seq<Byte>, i: nat): U16
    requires i + 2 <= |f|
  {
    f[i] as int + 0x100 * f[i + 1] as int
  }

  /**
   * Comparing a loaded field with `bpf_htons(v)` tests that the field holds
   * `v` in network (big-endian) byte order.
   */
  lemma LoadMatchesNetworkOrder(f: seq<Byte>, i: nat, v: U16)
    requires i + 2 <= |f|
    ensures LoadLe16(f, i) == Htons(v) <==> f[i] as int * 0x100 + f[i + 1] as int == v
  {
  }

  /** `ip->ihl`: the low four bits of the first IPv4 header byte, in 32-bit words. */
  function Ihl(b: Byte): nat {
    b % 16
  }

  /** `tcp->doff`: the high four bits of TCP header byte 12, in 32-bit words. */
  function Doff(b: Byte): nat {
    b / 16
  }

  /** Where the classifier looks for the TCP header: IHL words after the IPv4 header starts. */
  function TcpOffset(f: seq<Byte>): nat
    requires EthHeaderLen < |f|
  {
    EthHeaderLen + Ihl(f[EthHeaderLen]) * 4
  }

  /** Where the classifier looks for the TLS record: `doff` words after the TCP header starts. */
  function PayloadOffset(f: seq<Byte>): nat
    requires EthHeaderLen < |f| && TcpOffset(f) + 12 < |f|
  {
    TcpOffset(f) + Doff(f[TcpOffset(f) + 12]) * 4
  }

  /**
   * The check chain of `parse_tls_client_hello`, in its order: 1 for a frame
   * carrying the start of a TLS ClientHello to port 443, otherwise 0.
   */
  function ClassifyFrame(f: seq<Byte>): (r: int)
    ensures r == 0 || r == 1
  {
    if |f| < EthHeaderLen then 0
    else if LoadLe16(f, 12) != Htons(EthPIp) then 0
    else if |f| < EthHeaderLen + IpHeaderLen then 0
    else if f[EthHeaderLen + 9] != IpProtoTcp then 0
    else
      var t := TcpOffset(f);
      if |f| < t + TcpHeaderLen then 0
      else if LoadLe16(f, t + 2) != Htons(HttpsPort) then 0
      else
        var p := PayloadOffset(f);
        if |f| < p + TlsRecordLen then 0
        else if f[p] != TlsHandshake then 0
        else if |f| < p + TlsRecordLen + HandshakeHeaderLen then 0
        else if f[p + TlsRecordLen] != TlsClientHello then 0
        else 1
  }

  /**
   * A frame is classified as a ClientHello exactly when: it holds Ethernet and
   * IPv4 headers with EtherType 0x0800 and protocol 6; the TCP header at the
   * IHL offset lies inside the frame and has destination port 443; the TLS
   * record header and the handshake header at the data offset lie inside the
   * frame; the record is a handshake (22) and the message a client_hello (1).
   */
  predicate ClientHelloShape(f: seq<Byte>) {
    && |f| >= EthHeaderLen + IpHeaderLen
    && f[12] == 0x08 && f[13] == 0x00
    && f[EthHeaderLen + 9] == 6
    && TcpOffset(f) + TcpHeaderLen <= |f|
    && f[TcpOffset(f) + 2] == 0x01 && f[TcpOffset(f) + 3] == 0xBB
    && PayloadOffset(f) + TlsRecordLen + HandshakeHeaderLen <= |f|
    && f[PayloadOffset(f)] == 0x16
    && f[PayloadOffset(f) + TlsRecordLen] == 0x01
  }

  lemma ClassifyFrameCharacterization(f: seq<Byte>)
    ensures ClassifyFrame(f) == 1 <==> ClientHelloShape(f)
  {
    if |f| >= EthHeaderLen + IpHeaderLen {
      LoadMatchesNetworkOrder(f, 12, EthPIp);
      var t := TcpOffset(f);
      if t + TcpHeaderLen <= |f| {
        LoadMatchesNetworkOrder(f, t + 2, HttpsPort);
      }
    }
  }

  /**
   * Every header the classifier reads must end inside the frame: a frame too
   * short for the Ethernet and IPv4 headers, for the TCP header at its
   * offset, or for the TLS record and handshake headers at theirs gives 0.
   */
  lemma ClassifyFrameNeedsRoom(f: seq<Byte>)
    ensures |f| < EthHeaderLen + IpHeaderLen ==> ClassifyFrame(f) == 0
    ensures |f| > EthHeaderLen && |f| < TcpOffset(f) + TcpHeaderLen ==> ClassifyFrame(f) == 0
    ensures (|f| > EthHeaderLen && TcpOffset(f) + TcpHeaderLen <= |f|
             && |f| < PayloadOffset(f) + TlsRecordLen + HandshakeHeaderLen) ==> ClassifyFrame(f) == 0
  {
  }

  /**
   * The record's version and length and the handshake's 24-bit length are
   * never read: when the headers have at least their minimum sizes, so that
   * those bytes lie past every byte the classifier inspects, changing them
   * leaves the verdict unchanged.
   */
  lemma LengthAndVersionUnchecked(f: seq<Byte>, j: nat, v: Byte)
    requires |f| > EthHeaderLen && Ihl(f[EthHeaderLen]) >= 5
    requires TcpOffset(f) + TcpHeaderLen <= |f| && Doff(f[TcpOffset(f) + 12]) >= 5
    requires (PayloadOffset(f) + 1 <= j < PayloadOffset(f) + TlsRecordLen)
             || (PayloadOffset(f) + TlsRecordLen + 1 <= j < PayloadOffset(f) + TlsRecordLen + HandshakeHeaderLen)
    requires j < |f|
    ensures ClassifyFrame(f[j := v]) == ClassifyFrame(f)
  {
    var g := f[j := v];
    assert g[EthHeaderLen] == f[EthHeaderLen];
    assert TcpOffset(g) == TcpOffset(f);
    assert g[TcpOffset(f) + 12] == f[TcpOffset(f) + 12];
    assert PayloadOffset(g) == PayloadOffset(f);
    ClassifyFrameCharacterization(f);
    ClassifyFrameCharacterization(g);
  }

  /**
   * A frame whose IPv4 header has IHL 0, so that the "TCP header" the
   * classifier reads is the IPv4 header itself: destination port bytes 0x01
   * 0xBB at offsets 16-17, protocol 6 at offset 23, data offset 2 in byte 26,
   * and a handshake record of type 1 at offset 22.
   */
  function IhlZeroFrame(): seq<Byte> {
    [0, 0, 0, 0, 0, 0, 0, 0, 0, 0, 0, 0, 0x08, 0x00,
     0x40, 0, 0x01, 0xBB, 0, 0, 0, 0, 0x16, 6, 0, 0, 0x20, 1, 0, 0, 0, 0, 0, 0]
  }

  /** There is no check that IHL is at least 5: the IHL-0 frame is accepted. */
  lemma AcceptsIhlBelowFive()
    ensures Ihl(IhlZeroFrame()[EthHeaderLen]) == 0 && ClassifyFrame(IhlZeroFrame()) == 1
  {
    var f := IhlZeroFrame();
    assert TcpOffset(f) == 14;
    assert PayloadOffset(f) == 22;
  }

  /** The four counters of `struct ja3_stats`. */
  datatype Counter = ClientHelloSeen | ClientHelloModified | Errors | PacketsPassed

  /** The single entry of `ja3_stats_map`. */
  class Ja3Stats {
    var clientHelloSeen: U64
    var clientHelloModified: U64
    var errors: U64
    var packetsPassed: U64

    constructor ()
      ensures clientHelloSeen == 0 && clientHelloModified == 0 && errors == 0 && packetsPassed == 0
    {
      clientHelloSeen, clientHelloModified, errors, packetsPassed := 0, 0, 0, 0;
    }

    function Get(c: Counter): U64
      reads this
    {
      match c
      case ClientHelloSeen => clientHelloSeen
      case ClientHelloModified => clientHelloModified
      case Errors => errors
      case PacketsPassed => packetsPassed
    }

    /** `__sync_fetch_and_add(counter, 1)`: one counter goes up by one (mod 2^64), the others stay. */
    method Bump(c: Counter)
      modifies this
      ensures clientHelloSeen == if c == ClientHelloSeen then Inc(old(clientHelloSeen)) else old(clientHelloSeen)
      ensures clientHelloModified == if c == ClientHelloModified then Inc(old(clientHelloModified)) else old(clientHelloModified)
      ensures errors == if c == Errors then Inc(old(errors)) else old(errors)
      ensures packetsPassed == if c == PacketsPassed then Inc(old(packetsPassed)) else old(packetsPassed)
    {
      match c
      case ClientHelloSeen => clientHelloSeen := Inc(clientHelloSeen);
      case ClientHelloModified => clientHelloModified := Inc(clientHelloModified);
      case Errors => errors := Inc(errors);
      case PacketsPassed => packetsPassed := Inc(packetsPassed);
    }
  }

  /** `update_ja3_stats`: the statistics lookup may fail, and then nothing is counted. */
  method UpdateJa3Stats(stats: Ja3Stats?, c: Counter)
    modifies stats
    ensures stats != null ==>
              && stats.clientHelloSeen == (if c == ClientHelloSeen then Inc(old(stats.clientHelloSeen)) else old(stats.clientHelloSeen))
              && stats.clientHelloModified == (if c == ClientHelloModified then Inc(old(stats.clientHelloModified)) else old(stats.clientHelloModified))
              && stats.errors == (if c == Errors then Inc(old(stats.errors)) else old(stats.errors))
              && stats.packetsPassed == (if c == PacketsPassed then Inc(old(stats.packetsPassed)) else old(stats.packetsPassed))
  {
    if stats != null {
      stats.Bump(c);
    }
  }

  /** A JA3 profile; the hooks read only `enabled`. */
  datatype Ja3Profile = Ja3Profile(
    tlsVersion: U16,
    ciphers: seq<U16>,
    extensions: seq<U16>,
    curves: seq<U16>,
    formats: seq<Byte>,
    enabled: Byte)

  /** The profile lookup of the hooks: a profile for the PID whose `enabled` byte is non-zero. */
  predicate ProfileEnabled(profiles: map<U32, Ja3Profile>, pidTgid: U64) {
    Pid(pidTgid) in profiles && profiles[Pid(pidTgid)].enabled != 0
  }

  /**
   * `parse_tls_client_hello`: the classifier's verdict, counting the frame
   * in `client_hello_seen` exactly when it is 1.
   */
  method ParseTlsClientHello(frame: seq<Byte>, stats: Ja3Stats?) returns (r: int)
    modifies stats
    ensures r == ClassifyFrame(frame)
    ensures stats != null ==>
              && stats.clientHelloSeen == (if r == 1 then Inc(old(stats.clientHelloSeen)) else old(stats.clientHelloSeen))
              && stats.clientHelloModified == old(stats.clientHelloModified)
              && stats.errors == old(stats.errors) && stats.packetsPassed == old(stats.packetsPassed)
  {
    r := ClassifyFrame(frame);
    if r == 1 {
      UpdateJa3Stats(stats, ClientHelloSeen);
    }
  }

  /**
   * `ja3_socket_filter`: always passes the packet (0). Only with an enabled
   * profile is the frame classified; a ClientHello is then counted both as
   * seen and as modified.
   */
  method SocketFilter(profiles: map<U32, Ja3Profile>, pidTgid: U64, frame: seq<Byte>, stats: Ja3Stats?)
      returns (r: int)
    modifies stats
    ensures r == 0
    ensures stats != null ==>
              var hit := ProfileEnabled(profiles, pidTgid) && ClassifyFrame(frame) == 1;
              && stats.clientHelloSeen == (if hit then Inc(old(stats.clientHelloSeen)) else old(stats.clientHelloSeen))
              && stats.clientHelloModified == (if hit then Inc(old(stats.clientHelloModified)) else old(stats.clientHelloModified))
              && stats.errors == old(stats.errors) && stats.packetsPassed == old(stats.packetsPassed)
  {
    if !ProfileEnabled(profiles, pidTgid) {
      return 0;
    }
    var parsed := ParseTlsClientHello(frame, stats);
    if parsed != 0 {
      UpdateJa3Stats(stats, ClientHelloModified);
    }
    r := 0;
  }

  /**
   * `ja3_tc_egress`: always `TC_ACT_OK`; with an enabled profile the frame is
   * classified, which counts a ClientHello as seen, and nothing else happens.
   */
  method TcEgress(profiles: map<U32, Ja3Profile>, pidTgid: U64, frame: seq<Byte>, stats: Ja3Stats?)
      returns (r: int)
    modifies stats
    ensures r == TcActOk
    ensures stats != null ==>
              var hit := ProfileEnabled(profiles, pidTgid) && ClassifyFrame(frame) == 1;
              && stats.clientHelloSeen == (if hit then Inc(old(stats.clientHelloSeen)) else old(stats.clientHelloSeen))
              && stats.clientHelloModified == old(stats.clientHelloModified)
              && stats.errors == old(stats.errors) && stats.packetsPassed == old(stats.packetsPassed)
  {
    if !ProfileEnabled(profiles, pidTgid) {
      return TcActOk;
    }
    var _ := ParseTlsClientHello(frame, stats);
    r := TcActOk;
  }

  /** The sockops condition for counting a connection. */
  predicate SockopsCounts(family: U32, remotePort: U32, op: U32, profiles: map<U32, Ja3Profile>, pidTgid: U64) {
    && (family == AfInet || family == AfInet6)
    && remotePort == Htons(HttpsPort)
    && op == SockOpsTcpConnectCb
    && ProfileEnabled(profiles, pidTgid)
  }

  /**
   * `ja3_sockops`: always 0; `packets_passed` goes up exactly for a TCP connect
   * over IPv4 or IPv6 whose `remote_port` field equals `bpf_htons(443)`, by a
   * process with an enabled profile. The field is compared as the raw 32-bit
   * value it is, with no conversion.
   */
  method Sockops(family: U32, remotePort: U32, op: U32, profiles: map<U32, Ja3Profile>, pidTgid: U64, stats: Ja3Stats?)
      returns (r: int)
    modifies stats
    ensures r == 0
    ensures stats != null ==>
              var hit := SockopsCounts(family, remotePort, op, profiles, pidTgid);
              && stats.packetsPassed == (if hit then Inc(old(stats.packetsPassed)) else old(stats.packetsPassed))
              && stats.clientHelloSeen == old(stats.clientHelloSeen)
              && stats.clientHelloModified == old(stats.clientHelloModified)
              && stats.errors == old(stats.errors)
  {
    if family != AfInet && family != AfInet6 {
      return 0;
    }
    if remotePort != Htons(HttpsPort) {
      return 0;
    }
    if op == SockOpsTcpConnectCb {
      if ProfileEnabled(profiles, pidTgid) {
        UpdateJa3Stats(stats, PacketsPassed);
      }
    }
    r := 0;
  }

  /** The port test of the sockops hook compares against 443 in network byte order. */
  lemma SockopsPortIsNetworkOrder443()
    ensures Htons(HttpsPort) == 0xBB01
  {
  }
}
