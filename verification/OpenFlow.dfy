/** Frames, and the part of OpenFlow 1.0.0 the controller uses: exact-connection matches, action
    lists and flow entries with timeouts. */
module OpenFlow {
  import opened Common
  import opened Ipv4
  import opened Policy
  import opened ConnTrack

  type Dpid = int
  type Port = int

  // --- Frames ----------------------------------------------------------------------------------

  /** `tpSrc` and `tpDst` are what a switch reads from the transport header: the ports of TCP and
      UDP, type and code of ICMP. `parsed` says whether POX could parse that header. */
  datatype IpPacket = IpPacket(
    src: Addr, dst: Addr, proto: nat, ttl: nat,
    tpSrc: nat, tpDst: nat, parsed: bool, echoId: nat, body: Body)

  datatype Body = Data(bytes: seq<Byte>) | Quote(original: IpPacket)

  datatype Payload =
    | Lldp
    | Arp(opcode: nat, hwsrc: Mac, protosrc: Addr, hwdst: Mac, protodst: Addr)
    | Ip(ip: IpPacket)
    | OtherType(etherType: nat, data: seq<Byte>)

  datatype Frame = Frame(src: Mac, dst: Mac, payload: Payload)

  const ARP_REQUEST := 1
  const ARP_REPLY := 2
  const ETHER_BROADCAST: Mac := "ff:ff:ff:ff:ff:ff"

  /** The low bit of the first octet. */
  predicate IsMulticast(m: Mac) {
    |m| >= 2 && m[1] in "13579bdf"
  }

  predicate HasTransport(proto: nat) {
    proto == IPPROTO_ICMP || proto == IPPROTO_TCP || proto == IPPROTO_UDP
  }

  // --- Matching (section 3.4) ------------------------------------------------------------------

  datatype EtherType = TypeLldp | TypeArp | TypeIp | TypeOther(n: nat)

  /** A match on one connection at one port. A field that is None is a wildcard. */
  datatype Match = Match(
    inPort: Port, dlSrc: Mac, dlDst: Mac, dlType: EtherType,
    nw: Option<(Addr, Addr, nat)>, tp: Option<(nat, nat)>)

  function TypeOf(f: Frame): EtherType {
    match f.payload
    case Lldp => TypeLldp
    case Arp(_, _, _, _, _) => TypeArp
    case Ip(_) => TypeIp
    case OtherType(n, _) => TypeOther(n)
  }

  /** Network addresses and protocol; for ARP its protocol addresses and opcode. */
  function NetworkOf(f: Frame): Option<(Addr, Addr, nat)> {
    match f.payload
    case Ip(ip) => Some((ip.src, ip.dst, ip.proto))
    case Arp(op, _, src, _, dst) => if op <= 255 then Some((src, dst, op)) else None
    case _ => None
  }

  /** `ofp_match.from_packet`: exact, except that a transport header POX did not parse leaves the
      transport fields wild. */
  function MatchOf(f: Frame, port: Port): Match {
    var tp := if f.payload.Ip? && f.payload.ip.parsed && HasTransport(f.payload.ip.proto)
              then Some((f.payload.ip.tpSrc, f.payload.ip.tpDst)) else None;
    Match(port, f.src, f.dst, TypeOf(f), NetworkOf(f), tp)
  }

  predicate Matches(m: Match, f: Frame, port: Port) {
    && m.inPort == port && m.dlSrc == f.src && m.dlDst == f.dst && m.dlType == TypeOf(f)
    && (m.nw.Some? ==> NetworkOf(f) == m.nw)
    && (m.tp.Some? ==> f.payload.Ip? && m.tp.value == (f.payload.ip.tpSrc, f.payload.ip.tpDst))
  }

  // --- Actions ---------------------------------------------------------------------------------

  datatype OutPort = To(port: Port) | Flood

  datatype Action = SetDlSrc(mac: Mac) | SetDlDst(mac: Mac) | DecTtl | Output(out: OutPort)

  function WithTtl(f: Frame, ttl: nat): Frame
    requires f.payload.Ip?
  {
    f.(payload := Ip(f.payload.ip.(ttl := ttl)))
  }

  /** The frames an action list sends, and where. Decrementing a TTL that would reach zero stops
      the packet. */
  function Execute(actions: seq<Action>, f: Frame): seq<(OutPort, Frame)> {
    if actions == [] then []
    else match actions[0]
      case SetDlSrc(m) => Execute(actions[1..], f.(src := m))
      case SetDlDst(m) => Execute(actions[1..], f.(dst := m))
      case DecTtl =>
        if !f.payload.Ip? then Execute(actions[1..], f)
        else if f.payload.ip.ttl <= 1 then []
        else Execute(actions[1..], WithTtl(f, f.payload.ip.ttl - 1))
      case Output(out) => [(out, f)] + Execute(actions[1..], f)
  }

  // --- Flow entries (sections 4.6 and 4.7) -----------------------------------------------------

  datatype Rule = Rule(actions: seq<Action>, idle: Time, hard: Time, installed: Time, lastHit: Time)

  /** Adding an entry replaces one with the same match, so a table is a map. */
  type FlowTable = map<Match, Rule>

  predicate Active(r: Rule, now: Time) {
    now - r.installed < r.hard && now - r.lastHit < r.idle
  }

  // --- What execution keeps --------------------------------------------------------------------

  /** The parts of an IP packet the firewall looks at. */
  predicate SameConnection(a: IpPacket, b: IpPacket) {
    a.src == b.src && a.dst == b.dst && a.proto == b.proto && a.tpSrc == b.tpSrc && a.tpDst == b.tpDst
  }

  /** Actions rewrite MAC addresses and TTL, never what the firewall looks at. */
  lemma {:induction false} ExecutionKeepsTheConnection(actions: seq<Action>, f: Frame, i: nat)
    requires i < |Execute(actions, f)|
    ensures var g := Execute(actions, f)[i].1;
            g.payload.Ip? == f.payload.Ip? && (f.payload.Ip? ==> SameConnection(g.payload.ip, f.payload.ip))
  {
    match actions[0] {
      case SetDlSrc(m) => ExecutionKeepsTheConnection(actions[1..], f.(src := m), i);
      case SetDlDst(m) => ExecutionKeepsTheConnection(actions[1..], f.(dst := m), i);
      case DecTtl =>
        if !f.payload.Ip? {
          ExecutionKeepsTheConnection(actions[1..], f, i);
        } else {
          ExecutionKeepsTheConnection(actions[1..], WithTtl(f, f.payload.ip.ttl - 1), i);
        }
      case Output(out) =>
        if i > 0 {
          ExecutionKeepsTheConnection(actions[1..], f, i - 1);
        }
    }
  }

  /** The four actions of a routed rule. */
  function RouteActions(gatewayMac: Mac, dstMac: Mac, port: Port): seq<Action> {
    [SetDlSrc(gatewayMac), SetDlDst(dstMac), DecTtl, Output(To(port))]
  }

  lemma ExecuteFirst(a: Action, rest: seq<Action>, f: Frame)
    ensures Execute([a] + rest, f) ==
            match a
            case SetDlSrc(m) => Execute(rest, f.(src := m))
            case SetDlDst(m) => Execute(rest, f.(dst := m))
            case DecTtl => if !f.payload.Ip? then Execute(rest, f)
                           else if f.payload.ip.ttl <= 1 then [] else Execute(rest, WithTtl(f, f.payload.ip.ttl - 1))
            case Output(out) => [(out, f)] + Execute(rest, f)
  {
  }

  lemma OutputSends(out: OutPort, f: Frame)
    ensures Execute([Output(out)], f) == [(out, f)]
  {
  }

  lemma RouteActionsRoute(gatewayMac: Mac, dstMac: Mac, port: Port, f: Frame)
    requires f.payload.Ip?
    ensures Execute(RouteActions(gatewayMac, dstMac, port), f)
            == if f.payload.ip.ttl <= 1 then []
               else [(To(port), Frame(gatewayMac, dstMac, Ip(f.payload.ip.(ttl := f.payload.ip.ttl - 1))))]
  {
    var send := [Output(To(port))];
    var g := Frame(gatewayMac, dstMac, f.payload);
    assert RouteActions(gatewayMac, dstMac, port) == [SetDlSrc(gatewayMac)] + ([SetDlDst(dstMac)] + ([DecTtl] + send));
    ExecuteFirst(SetDlSrc(gatewayMac), [SetDlDst(dstMac)] + ([DecTtl] + send), f);
    ExecuteFirst(SetDlDst(dstMac), [DecTtl] + send, f.(src := gatewayMac));
    ExecuteFirst(DecTtl, send, g);
    if f.payload.ip.ttl > 1 {
      OutputSends(To(port), WithTtl(g, f.payload.ip.ttl - 1));
    }
  }
}
