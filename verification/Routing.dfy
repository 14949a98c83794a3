/** What becomes, in every run, of an honest packet from one zone to another that comes to the controller,
    and of the probes for a host whose place is not known: field by field, what is put on the wire and
    which rules are installed. */
module Routing {
  import opened Common
  import opened Ipv4
  import opened Policy
  import opened ConnTrack
  import opened OpenFlow
  import opened RouterModel
  import opened RouterInv
  import opened RouterPacketIn
  import opened DataPlane
  import opened Isolation
  import opened Floods
  import opened RunLog
  import opened Messages
  import opened KeepAlive
  import opened Queues

  // --- From the packet-in to the route ---------------------------------------------------------

  /** An honest packet for another zone comes to the controller. */
  predicate CrossesZones(cfg: Config, s: Step) {
    HonestArrival(cfg, s) && s.via.None?
  }

  function DstZone(cfg: Config, s: Step): ZoneName
    requires CrossesZones(cfg, s)
  {
    cfg.zoneOf(s.frame.payload.ip.dst).value
  }

  function JobOf(s: Step): Job
    requires s.Arrive? && s.frame.payload.Ip?
  {
    Job(s.dpid, s.port, s.frame.src, s.frame.payload.ip)
  }

  /** The state in which the packet has been checked. */
  function Checked(cfg: Config, r: Router, s: Step): Router
    requires CrossesZones(cfg, s)
  {
    var ip := s.frame.payload.ip;
    CheckConnection(cfg, Learn(cfg, r, s.dpid, s.port, ip.src, s.frame.src, ZoneOfPort(cfg, s.dpid, s.port).value),
                    ip, PolicyAllows(cfg, ip.src, ip.dst, ip.proto), s.c)
  }

  /** The check leaves alone everything that routing looks at, but for where the sender is. */
  lemma CheckingKeepsTheRest(cfg: Config, r: Router, s: Step)
    requires CrossesZones(cfg, s)
    ensures var k := Checked(cfg, r, s);
            && k == r.(macTable := k.macTable, ipToLoc := k.ipToLoc, conns := k.conns, log := k.log)
            && k.log != [] && (k.log[|k.log| - 1].verdict != Drop <==> IsLetThrough(cfg, r.conns, s.frame.payload.ip, s.c.t))
            && Get(k.ipToLoc, s.frame.payload.ip.dst) == Get(r.ipToLoc, s.frame.payload.ip.dst)
  {
    var ip := s.frame.payload.ip;
    var learned := Learn(cfg, r, s.dpid, s.port, ip.src, s.frame.src, ZoneOfPort(cfg, s.dpid, s.port).value);
    LearningKeepsTheRest(cfg, r, s.dpid, s.port, ip.src, s.frame.src, ZoneOfPort(cfg, s.dpid, s.port).value, ip.dst);
    assert Checked(cfg, r, s).conns == AfterCheck(r.conns, IDLE_TIMEOUT, PolicyAllows(cfg, ip.src, ip.dst, ip.proto), TrackedOf(ip), s.c.t, s.c.s);
  }

  lemma LearningKeepsTheRest(cfg: Config, r: Router, dpid: Dpid, port: Port, ip: Addr, mac: Mac, zone: ZoneName, other: Addr)
    requires ip != other
    ensures var learned := Learn(cfg, r, dpid, port, ip, mac, zone);
            && learned == r.(macTable := learned.macTable, ipToLoc := learned.ipToLoc)
            && Get(learned.ipToLoc, other) == Get(r.ipToLoc, other)
  {
  }

  lemma CrossingIsRouted(cfg: Config, r: Router, s: Step)
    requires ConfigOk(cfg) && DaemonAgrees(cfg) && Consistent(cfg, r) && CrossesZones(cfg, s)
    ensures DstZone(cfg, s) in cfg.gateways && ZoneOfPort(cfg, s.dpid, s.port).Some?
    ensures HandlePacketIn(cfg, r, EventOfStep(s), s.c)
            == if IsLetThrough(cfg, r.conns, s.frame.payload.ip, s.c.t)
               then Route(cfg, Checked(cfg, r, s), EventOfStep(s), DstZone(cfg, s), s.c.u)
               else InstallDropFlow(Checked(cfg, r, s), EventOfStep(s))
  {
    var e := EventOfStep(s);
    var ip, src := s.frame.payload.ip, ZoneOfPort(cfg, s.dpid, s.port).value;
    BothFirewallsSayPolicy(cfg, s.c.backend, e, src, DstZone(cfg, s));
    CheckingKeepsTheRest(cfg, r, s);
    var learned := Learn(cfg, r, s.dpid, s.port, ip.src, s.frame.src, src);
    assert HandlePacketIn(cfg, r, e, s.c) == HandleHonestIp(cfg, learned, e, src, s.c) == HandleCrossZoneIp(cfg, learned, e, src, DstZone(cfg, s), s.c);
  }

  /** The step of a run at which such a packet comes. */
  lemma CrossingStep(cfg: Config, steps: seq<Step>, nets: seq<Net>, late: Time, k: nat) returns (r: Router)
    requires InRun(cfg, steps, nets, late, k) && k < |steps| && CrossesZones(cfg, steps[k])
    ensures DstZone(cfg, steps[k]) in cfg.gateways && ZoneOfPort(cfg, steps[k].dpid, steps[k].port).Some?
    ensures var s, n, k' := steps[k], nets[k], Checked(cfg, nets[k].router, steps[k]);
            && s.dpid in n.router.connections
            && r == (if IsLetThrough(cfg, n.router.conns, s.frame.payload.ip, s.c.t) then Route(cfg, k', EventOfStep(s), DstZone(cfg, s), s.c.u)
                     else InstallDropFlow(k', EventOfStep(s)))
            && k' == n.router.(macTable := k'.macTable, ipToLoc := k'.ipToLoc, conns := k'.conns, log := k'.log)
            && Get(k'.ipToLoc, s.frame.payload.ip.dst) == Get(n.router.ipToLoc, s.frame.payload.ip.dst)
            && k'.outbox == [] && nets[k + 1] == Deliver(cfg, n, r, s.c.u)
  {
    StepOfRun(cfg, steps, nets, late, k);
    CrossingIsRouted(cfg, nets[k].router, steps[k]);
    CheckingKeepsTheRest(cfg, nets[k].router, steps[k]);
    r := HandlePacketIn(cfg, nets[k].router, EventOfStep(steps[k]), steps[k].c);
  }

  // --- Refused packets -------------------------------------------------------------------------

  /** In every run, a refused packet goes nowhere and leaves a rule that drops the ones like it, for 10
      seconds after the last of them and 30 in all. */
  lemma RefusedPacketsAreDropped(cfg: Config, steps: seq<Step>, nets: seq<Net>, late: Time, k: nat)
    requires InRun(cfg, steps, nets, late, k) && k < |steps| && CrossesZones(cfg, steps[k])
    requires !IsLetThrough(cfg, nets[k].router.conns, steps[k].frame.payload.ip, steps[k].c.t)
    ensures var s, n, n' := steps[k], nets[k], nets[k + 1];
            && n'.trace == n.trace && n'.router.pending == n.router.pending
            && n'.tables == n.tables[s.dpid := TableOf(n, s.dpid)[MatchOf(s.frame, s.port) := Rule([], 10.0, 30.0, s.c.u, s.c.u)]]
  {
    var r := CrossingStep(cfg, steps, nets, late, k);
    var s := steps[k];
    var m := FlowMod(s.dpid, MatchOf(s.frame, s.port), 10.0, 30.0, [], None);
    assert r.outbox == [] + [m] == [m];
    OneMessageIsObeyed(cfg, nets[k], r, s.c.u, m);
  }

  // --- Packets to a known host -----------------------------------------------------------------

  /** The packet one hop on: from the gateway of the destination's zone to the host, TTL one lower. */
  function OneHopOn(ip: IpPacket, gateway: Gateway, loc: Location): Frame
    requires ip.ttl > 0
  {
    Frame(gateway.mac, loc.mac, Ip(ip.(ttl := ip.ttl - 1)))
  }

  /** The rule at the core that does the same to the packets that follow. */
  function CoreEntry(gateway: Gateway, loc: Location, at: Time): Rule {
    Rule([SetDlSrc(gateway.mac), SetDlDst(loc.mac), DecTtl, Output(To(loc.corePort))], 30.0, 60.0, at, at)
  }

  /** The rule at a leaf that passes them up. */
  function LeafEntry(uplink: Port, at: Time): Rule {
    Rule([Output(To(uplink))], 30.0, 60.0, at, at)
  }

  /** The tables with the rules of a packet that came in at a switch: the core matches it where its leaf's
      uplink ends. */
  function WithRoute(cfg: Config, n: Net, s: Step, gateway: Gateway, loc: Location): map<Dpid, FlowTable>
    requires s.Arrive? && (s.dpid != cfg.maps.coreDpid ==> s.dpid in cfg.maps.leafUplinkPort && s.dpid in cfg.maps.leafCorePort)
  {
    var core, m, at := cfg.maps.coreDpid, MatchOf(s.frame, s.port), s.c.u;
    if s.dpid == core then n.tables[core := TableOf(n, core)[m := CoreEntry(gateway, loc, at)]]
    else n.tables[core := TableOf(n, core)[m.(inPort := cfg.maps.leafCorePort[s.dpid]) := CoreEntry(gateway, loc, at)]]
           [s.dpid := TableOf(n, s.dpid)[m := LeafEntry(cfg.maps.leafUplinkPort[s.dpid], at)]]
  }

  lemma SwitchIsOfTheLayout(cfg: Config, dpid: Dpid, port: Port)
    requires MapsOk(cfg.maps) && ZoneOfPort(cfg, dpid, port).Some? && dpid != cfg.maps.coreDpid
    ensures dpid in cfg.maps.leafUplinkPort && dpid in cfg.maps.leafCorePort
  {
    assert dpid in cfg.maps.switchZone.Keys;
  }

  function PacketMsg(cfg: Config, ip: IpPacket, gateway: Gateway, loc: Location): Msg
    requires ip.ttl > 0
  {
    PacketOut(cfg.maps.coreDpid, OneHopOn(ip, gateway, loc), To(loc.corePort))
  }

  function CoreMsg(cfg: Config, s: Step, inPort: Port, gateway: Gateway, loc: Location): Msg
    requires s.Arrive?
  {
    FlowMod(cfg.maps.coreDpid, MatchOf(s.frame, s.port).(inPort := inPort), 30.0, 60.0, CoreEntry(gateway, loc, 0.0).actions, None)
  }

  function LeafMsg(s: Step, uplink: Port): Msg
    requires s.Arrive?
  {
    FlowMod(s.dpid, MatchOf(s.frame, s.port), 30.0, 60.0, [Output(To(uplink))], None)
  }

  /** At the core: its rule, then the packet. */
  lemma RoutedAtTheCore(cfg: Config, r: Router, s: Step, zone: ZoneName, u: Time)
    requires ConfigOk(cfg) && s.Arrive? && s.frame.payload.Ip? && zone in cfg.gateways && ZoneOfPort(cfg, s.dpid, s.port).Some?
    requires r.outbox == [] && s.frame.payload.ip.dst in r.ipToLoc && s.frame.payload.ip.ttl > 1
    requires cfg.maps.coreDpid in r.connections && s.dpid == cfg.maps.coreDpid
    ensures var ip, loc := s.frame.payload.ip, r.ipToLoc[s.frame.payload.ip.dst];
            Route(cfg, r, EventOfStep(s), zone, u)
            == r.(outbox := [CoreMsg(cfg, s, s.port, cfg.gateways[zone], loc), PacketMsg(cfg, ip, cfg.gateways[zone], loc)])
  {
    var ip, loc := s.frame.payload.ip, r.ipToLoc[s.frame.payload.ip.dst];
    assert MatchOf(s.frame, s.port).(inPort := s.port) == MatchOf(s.frame, s.port);
    assert [] + ([CoreMsg(cfg, s, s.port, cfg.gateways[zone], loc)] + []) + [PacketMsg(cfg, ip, cfg.gateways[zone], loc)]
        == [CoreMsg(cfg, s, s.port, cfg.gateways[zone], loc), PacketMsg(cfg, ip, cfg.gateways[zone], loc)];
  }

  /** At a leaf: the core's rule, the leaf's, then the packet. */
  lemma RoutedAtALeaf(cfg: Config, r: Router, s: Step, zone: ZoneName, u: Time)
    requires ConfigOk(cfg) && s.Arrive? && s.frame.payload.Ip? && zone in cfg.gateways && ZoneOfPort(cfg, s.dpid, s.port).Some?
    requires r.outbox == [] && s.frame.payload.ip.dst in r.ipToLoc && s.frame.payload.ip.ttl > 1
    requires cfg.maps.coreDpid in r.connections && s.dpid != cfg.maps.coreDpid
    ensures s.dpid in cfg.maps.leafUplinkPort && s.dpid in cfg.maps.leafCorePort
    ensures var ip, loc := s.frame.payload.ip, r.ipToLoc[s.frame.payload.ip.dst];
            Route(cfg, r, EventOfStep(s), zone, u)
            == r.(outbox := [CoreMsg(cfg, s, cfg.maps.leafCorePort[s.dpid], cfg.gateways[zone], loc),
                             LeafMsg(s, cfg.maps.leafUplinkPort[s.dpid]), PacketMsg(cfg, ip, cfg.gateways[zone], loc)])
  {
    SwitchIsOfTheLayout(cfg, s.dpid, s.port);
    var ip, loc := s.frame.payload.ip, r.ipToLoc[s.frame.payload.ip.dst];
    var core, leaf := CoreMsg(cfg, s, cfg.maps.leafCorePort[s.dpid], cfg.gateways[zone], loc), LeafMsg(s, cfg.maps.leafUplinkPort[s.dpid]);
    var packet := PacketMsg(cfg, ip, cfg.gateways[zone], loc);
    assert [] + ([core] + [leaf]) + [packet] == [core, leaf, packet];
  }

  /** The packet has been routed: it left the core one hop on, through the port its destination is known
      behind, and both rules are in place. */
  ghost predicate IsRouted(cfg: Config, n: Net, s: Step, n': Net, zone: ZoneName, loc: Location)
    requires s.Arrive? && s.frame.payload.Ip? && s.frame.payload.ip.ttl > 0 && zone in cfg.gateways
  {
    && (s.dpid != cfg.maps.coreDpid ==> s.dpid in cfg.maps.leafUplinkPort && s.dpid in cfg.maps.leafCorePort)
    && n'.tables == WithRoute(cfg, n, s, cfg.gateways[zone], loc)
    && n'.trace == n.trace + [Sent(s.c.u, cfg.maps.coreDpid, To(loc.corePort), OneHopOn(s.frame.payload.ip, cfg.gateways[zone], loc), false)]
  }

  lemma TwoAreObeyed(cfg: Config, n: Net, a: Msg, b: Msg)
    ensures ObeyAll(cfg, n, [a, b]) == Obey(cfg, Obey(cfg, n, a), b)
  {
    assert [a, b][1..] == [b] && [b][1..] == [];
    assert ObeyAll(cfg, n, [a, b]) == ObeyAll(cfg, Obey(cfg, n, a), [b]) == ObeyAll(cfg, Obey(cfg, Obey(cfg, n, a), b), []);
  }

  lemma ThreeAreObeyed(cfg: Config, n: Net, a: Msg, b: Msg, c: Msg)
    ensures ObeyAll(cfg, n, [a, b, c]) == Obey(cfg, Obey(cfg, Obey(cfg, n, a), b), c)
  {
    assert [a, b, c][1..] == [b, c];
    TwoAreObeyed(cfg, Obey(cfg, n, a), b, c);
  }

  lemma CoreRouteIsObeyed(cfg: Config, n: Net, s: Step, zone: ZoneName, loc: Location)
    requires s.Arrive? && s.frame.payload.Ip? && s.frame.payload.ip.ttl > 0 && zone in cfg.gateways && s.dpid == cfg.maps.coreDpid && n.now == s.c.u
    ensures IsRouted(cfg, n, s, Obey(cfg, Obey(cfg, n, CoreMsg(cfg, s, s.port, cfg.gateways[zone], loc)), PacketMsg(cfg, s.frame.payload.ip, cfg.gateways[zone], loc)),
                     zone, loc)
  {
    assert MatchOf(s.frame, s.port).(inPort := s.port) == MatchOf(s.frame, s.port);
  }

  lemma LeafRouteIsObeyed(cfg: Config, n: Net, s: Step, zone: ZoneName, loc: Location)
    requires s.Arrive? && s.frame.payload.Ip? && s.frame.payload.ip.ttl > 0 && zone in cfg.gateways && s.dpid != cfg.maps.coreDpid && n.now == s.c.u
    requires s.dpid in cfg.maps.leafUplinkPort && s.dpid in cfg.maps.leafCorePort
    ensures var n1 := Obey(cfg, n, CoreMsg(cfg, s, cfg.maps.leafCorePort[s.dpid], cfg.gateways[zone], loc));
            var n2 := Obey(cfg, n1, LeafMsg(s, cfg.maps.leafUplinkPort[s.dpid]));
            IsRouted(cfg, n, s, Obey(cfg, n2, PacketMsg(cfg, s.frame.payload.ip, cfg.gateways[zone], loc)), zone, loc)
  {
  }

  lemma RoutedIsDelivered(cfg: Config, n: Net, s: Step, r: Router, zone: ZoneName)
    requires ConfigOk(cfg) && s.Arrive? && s.frame.payload.Ip? && zone in cfg.gateways && ZoneOfPort(cfg, s.dpid, s.port).Some?
    requires r.outbox == [] && s.frame.payload.ip.dst in r.ipToLoc && s.frame.payload.ip.ttl > 1 && cfg.maps.coreDpid in r.connections
    ensures IsRouted(cfg, n, s, Deliver(cfg, n, Route(cfg, r, EventOfStep(s), zone, s.c.u), s.c.u), zone, r.ipToLoc[s.frame.payload.ip.dst])
    ensures Route(cfg, r, EventOfStep(s), zone, s.c.u).pending == r.pending
  {
    if s.dpid == cfg.maps.coreDpid {
      RoutedIsDeliveredAtTheCore(cfg, n, s, r, zone);
    } else {
      RoutedIsDeliveredAtALeaf(cfg, n, s, r, zone);
    }
  }

  lemma RoutedIsDeliveredAtTheCore(cfg: Config, n: Net, s: Step, r: Router, zone: ZoneName)
    requires ConfigOk(cfg) && s.Arrive? && s.frame.payload.Ip? && zone in cfg.gateways && ZoneOfPort(cfg, s.dpid, s.port).Some?
    requires r.outbox == [] && s.frame.payload.ip.dst in r.ipToLoc && s.frame.payload.ip.ttl > 1 && cfg.maps.coreDpid in r.connections
    requires s.dpid == cfg.maps.coreDpid
    ensures IsRouted(cfg, n, s, Deliver(cfg, n, Route(cfg, r, EventOfStep(s), zone, s.c.u), s.c.u), zone, r.ipToLoc[s.frame.payload.ip.dst])
    ensures Route(cfg, r, EventOfStep(s), zone, s.c.u).pending == r.pending
  {
    var gw, ip, loc := cfg.gateways[zone], s.frame.payload.ip, r.ipToLoc[s.frame.payload.ip.dst];
    RoutedAtTheCore(cfg, r, s, zone, s.c.u);
    var quiet := n.(router := Route(cfg, r, EventOfStep(s), zone, s.c.u).(outbox := []), now := s.c.u);
    TwoAreObeyed(cfg, quiet, CoreMsg(cfg, s, s.port, gw, loc), PacketMsg(cfg, ip, gw, loc));
    CoreRouteIsObeyed(cfg, quiet, s, zone, loc);
  }

  lemma RoutedIsDeliveredAtALeaf(cfg: Config, n: Net, s: Step, r: Router, zone: ZoneName)
    requires ConfigOk(cfg) && s.Arrive? && s.frame.payload.Ip? && zone in cfg.gateways && ZoneOfPort(cfg, s.dpid, s.port).Some?
    requires r.outbox == [] && s.frame.payload.ip.dst in r.ipToLoc && s.frame.payload.ip.ttl > 1 && cfg.maps.coreDpid in r.connections
    requires s.dpid != cfg.maps.coreDpid
    ensures IsRouted(cfg, n, s, Deliver(cfg, n, Route(cfg, r, EventOfStep(s), zone, s.c.u), s.c.u), zone, r.ipToLoc[s.frame.payload.ip.dst])
    ensures Route(cfg, r, EventOfStep(s), zone, s.c.u).pending == r.pending
  {
    var gw, ip, loc := cfg.gateways[zone], s.frame.payload.ip, r.ipToLoc[s.frame.payload.ip.dst];
    RoutedAtALeaf(cfg, r, s, zone, s.c.u);
    var quiet := n.(router := Route(cfg, r, EventOfStep(s), zone, s.c.u).(outbox := []), now := s.c.u);
    ThreeAreObeyed(cfg, quiet, CoreMsg(cfg, s, cfg.maps.leafCorePort[s.dpid], gw, loc), LeafMsg(s, cfg.maps.leafUplinkPort[s.dpid]), PacketMsg(cfg, ip, gw, loc));
    LeafRouteIsObeyed(cfg, quiet, s, zone, loc);
  }

  /** In every run, a packet that passes and whose destination is known is routed, and the packets that
      follow are left to two rules of 30 and 60 seconds: the core's, and the leaf's if it came in there. */
  lemma KnownHostsAreRoutedTo(cfg: Config, steps: seq<Step>, nets: seq<Net>, late: Time, k: nat)
    requires InRun(cfg, steps, nets, late, k) && k < |steps| && CrossesZones(cfg, steps[k])
    requires IsLetThrough(cfg, nets[k].router.conns, steps[k].frame.payload.ip, steps[k].c.t)
    requires steps[k].frame.payload.ip.dst in nets[k].router.ipToLoc && cfg.maps.coreDpid in nets[k].router.connections
    requires steps[k].frame.payload.ip.ttl > 1
    ensures DstZone(cfg, steps[k]) in cfg.gateways && nets[k + 1].router.pending == nets[k].router.pending
    ensures IsRouted(cfg, nets[k], steps[k], nets[k + 1], DstZone(cfg, steps[k]), nets[k].router.ipToLoc[steps[k].frame.payload.ip.dst])
  {
    var r := CrossingStep(cfg, steps, nets, late, k);
    RoutedIsDelivered(cfg, nets[k], steps[k], Checked(cfg, nets[k].router, steps[k]), DstZone(cfg, steps[k]));
    DeliveryKeepsRouter(cfg, nets[k], r, steps[k].c.u);
  }

  /** An expiring packet is answered with an ICMP error, time exceeded; one that cannot reach the core goes
      nowhere. */
  lemma OthersAreNotRouted(cfg: Config, steps: seq<Step>, nets: seq<Net>, late: Time, k: nat)
    requires InRun(cfg, steps, nets, late, k) && k < |steps| && CrossesZones(cfg, steps[k])
    requires IsLetThrough(cfg, nets[k].router.conns, steps[k].frame.payload.ip, steps[k].c.t)
    requires steps[k].frame.payload.ip.dst in nets[k].router.ipToLoc
    requires steps[k].frame.payload.ip.ttl <= 1 || cfg.maps.coreDpid !in nets[k].router.connections
    ensures nets[k + 1].tables == nets[k].tables && nets[k + 1].router.pending == nets[k].router.pending
    ensures if steps[k].frame.payload.ip.ttl > 1 then nets[k + 1].trace == nets[k].trace
            else exists m :: IsErrorFor(cfg, JobOf(steps[k]), 11, 0, m)
                             && nets[k + 1].trace == nets[k].trace + [Sent(steps[k].c.u, m.dpid, m.out, m.frame, false)]
  {
    var s := steps[k];
    var r := CrossingStep(cfg, steps, nets, late, k);
    var checked, zone := Checked(cfg, nets[k].router, s), DstZone(cfg, s);
    var loc := checked.ipToLoc[s.frame.payload.ip.dst];
    var msgs := ForwardSendsIt(cfg, checked, JobOf(s), zone, loc.corePort, loc.mac);
    NoRouteSends(cfg, checked, s, zone, msgs);
    assert r.outbox == [] + msgs == msgs;
    PacketsAreSent(cfg, nets[k], r, s.c.u, msgs);
    if s.frame.payload.ip.ttl <= 1 {
      assert Leaving(msgs, s.c.u) == [Sent(s.c.u, msgs[0].dpid, msgs[0].out, msgs[0].frame, false)];
      assert IsErrorFor(cfg, JobOf(s), 11, 0, msgs[0]);
    }
  }

  lemma NoRouteSends(cfg: Config, r: Router, s: Step, zone: ZoneName, msgs: seq<Msg>)
    requires ConfigOk(cfg) && s.Arrive? && s.frame.payload.Ip? && zone in cfg.gateways && ZoneOfPort(cfg, s.dpid, s.port).Some?
    requires s.frame.payload.ip.dst in r.ipToLoc && (s.frame.payload.ip.ttl <= 1 || cfg.maps.coreDpid !in r.connections)
    requires var loc := r.ipToLoc[s.frame.payload.ip.dst]; ForwardIp(cfg, r, JobOf(s), zone, loc.corePort, loc.mac) == Send(r, msgs)
    ensures Route(cfg, r, EventOfStep(s), zone, s.c.u) == Send(r, msgs)
  {
  }
}
