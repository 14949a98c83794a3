/** A deployment: the controller's configuration built from an accepted policy, its compiled header
    and an accepted layout; and the whole-run guarantees stated on those files. */
module Deployment {
  import opened Common
  import opened Ipv4
  import opened Policy
  import opened Daemon
  import opened ConnTrack
  import opened OpenFlow
  import opened RouterModel
  import opened RouterInv
  import opened DataPlane
  import opened Isolation
  import opened Delivery
  import opened Runs
  import opened Exactness
  import opened Layout
  import opened Wiring
  import Wire
  import Session
  import ZoneRouter

  function GatewaysOf(zones: seq<Zone>): map<ZoneName, Gateway>
    requires ZonesWellFormed(zones)
  {
    assert forall y, z :: y in zones && z in zones && y.name == z.name ==> y == z by {
      forall y, z | y in zones && z in zones && y.name == z.name ensures y == z {
        ZoneNamesAreUnique(zones, y, z);
      }
    }
    map z | z in zones :: z.name := Gateway(z.gateway, z.gatewayMac)
  }

  function ConfigOf(p: Policy, h: Header, maps: PortMaps, zoneCorePorts: map<ZoneName, seq<Port>>): Config
    requires WellFormed(p) && TablesReadable(h)
  {
    Config(
      (ip: Addr) => ZoneForIp(p.zones, ip),
      GatewaysOf(p.zones),
      (src, dst, isIcmp) => FirewallAllowed(p, Some(src), Some(dst), isIcmp),
      (src: Addr, dst: Addr, protocol: nat) => Answer(h, src, dst, protocol).verdict == ALLOW,
      maps, zoneCorePorts)
  }

  /** The configuration comes from a policy, its compiled header and a layout the loaders accept. */
  ghost predicate Deployed(p: Policy, h: Header, net: Network, cfg: Config) {
    && WellFormed(p) && |p.zones| <= 255 && Compiles(p, h) && TablesReadable(h)
    && Wired(cfg, net, PlanOf(p.zones))
    && cfg == ConfigOf(p, h, cfg.maps, cfg.zoneCorePorts)
  }

  /** Start-up as the controller does it, from the two parsed files. The two results are Err for the
      file that is refused; the header's names must be usable in C++. */
  method Deploy(rawZones: seq<RawZone>, rawRules: seq<RawRule>, layout: Raw)
    returns (r: Option<(Policy, Header, Network, Config)>)
    requires DistinctNames(rawZones) && DistinctKeys(layout) && |rawZones| <= 255
    ensures r.Some? ==> Acceptable(rawZones, rawRules) && Loaded(rawZones, rawRules, r.value.0)
                        && Describes(layout, PlanOf(r.value.0.zones), r.value.2)
                        && Deployed(r.value.0, r.value.1, r.value.2, r.value.3)
    ensures r.None? ==> || !Acceptable(rawZones, rawRules)
                        || (exists i :: 0 <= i < |rawZones| && !NameUsable(rawZones[i].name))
                        || (exists p :: Loaded(rawZones, rawRules, p) && !exists net :: Describes(layout, PlanOf(p.zones), net))
  {
    var policy := LoadPolicy(rawZones, rawRules);
    if policy.Err? {
      return None;
    }
    var p := policy.value;
    AcceptedIsWellFormed(rawZones, rawRules, p);
    var header := Render(p);
    if header.Err? {
      assert p.zones[header.error].name == rawZones[header.error].name;
      return None;
    }
    var network := LoadNetwork(layout, PlanOf(p.zones));
    if network.Err? {
      return None;
    }
    var net := network.value;
    AcceptedIsAStar(layout, PlanOf(p.zones), net);
    PortMapsOfIsMapped(net);
    var maps := PortMapsOf(net);
    var zoneCorePorts := ZoneRouter.BuildZoneCorePorts(maps.corePortZones);
    return Some((p, header.value, net, ConfigOf(p, header.value, maps, zoneCorePorts)));
  }

  // --- The configuration is sound --------------------------------------------------------------

  /** What the handlers rely on holds in every deployment. */
  lemma DeployedConfigIsOk(p: Policy, h: Header, net: Network, cfg: Config)
    requires Deployed(p, h, net, cfg)
    ensures ConfigOk(cfg)
  {
    forall z | z in cfg.gateways ensures cfg.zoneOf(cfg.gateways[z].ip) == Some(z) {
      GatewayIsInItsZone(p.zones, z);
    }
    MapsAreConsistent(net, cfg.maps);
    MappedZonesAreKnown(net, PlanOf(p.zones), cfg.maps);
  }

  /** The daemon, working on the compiled header, gives the policy's verdict. */
  lemma DeployedDaemonAgrees(p: Policy, h: Header, net: Network, cfg: Config)
    requires Deployed(p, h, net, cfg)
    ensures DaemonAgrees(cfg)
  {
    forall src: Addr, dst: Addr, proto: nat | proto == Daemon.IPPROTO_ICMP || proto == 0
      ensures cfg.daemon(src, dst, proto) == PolicyAllows(cfg, src, dst, proto)
    {
      CompilationIsCorrect(p, h, src, dst, proto);
    }
  }

  // --- Guarantees on the files -----------------------------------------------------------------

  /** The whole-run premises for a deployment. ConfigOk excludes nothing: every deployment has it. */
  ghost predicate DeployedRun(p: Policy, h: Header, net: Network, cfg: Config, steps: seq<Step>, nets: seq<Net>, late: Time) {
    Deployed(p, h, net, cfg) && ConfigOk(cfg) && 0.0 <= late && IsRun(cfg, steps, nets, late)
  }

  /** End-to-end isolation: if the policy file blocks all IP between two zones in both directions, no
      switch in any run ever sends an IP packet from an address of the one to an address of the
      other, by a rule or on the controller's order. */
  lemma BlockAllBothWaysIsolates(p: Policy, h: Header, net: Network, cfg: Config, steps: seq<Step>, nets: seq<Net>, late: Time,
                                 i: nat, k: nat, a: ZoneName, b: ZoneName)
    requires DeployedRun(p, h, net, cfg, steps, nets, late) && i < |nets| && k < |nets[i].trace|
    requires nets[i].trace[k].frame.payload.Ip?
    requires (a, b) in p.blockAll && (b, a) in p.blockAll && a != b
    ensures var ip := nets[i].trace[k].frame.payload.ip;
            !(ZoneForIp(p.zones, ip.src) == Some(a) && ZoneForIp(p.zones, ip.dst) == Some(b))
  {
    DeployedDaemonAgrees(p, h, net, cfg);
    BlockedBothWaysMeansIsolated(cfg, steps, nets, late, i, k, a, b);
  }

  /** The same for ICMP alone, blocked by rules of either kind in each direction. */
  lemma BlockIcmpBothWaysIsolatesIcmp(p: Policy, h: Header, net: Network, cfg: Config, steps: seq<Step>, nets: seq<Net>, late: Time,
                                      i: nat, k: nat, a: ZoneName, b: ZoneName)
    requires DeployedRun(p, h, net, cfg, steps, nets, late) && i < |nets| && k < |nets[i].trace|
    requires nets[i].trace[k].frame.payload.Ip? && nets[i].trace[k].frame.payload.ip.proto == Daemon.IPPROTO_ICMP
    requires (a, b) in p.blockAll + p.blockIcmp && (b, a) in p.blockAll + p.blockIcmp && a != b
    ensures var ip := nets[i].trace[k].frame.payload.ip;
            !(ZoneForIp(p.zones, ip.src) == Some(a) && ZoneForIp(p.zones, ip.dst) == Some(b))
  {
    DeployedDaemonAgrees(p, h, net, cfg);
    BlockedBothWaysMeansIsolated(cfg, steps, nets, late, i, k, a, b);
  }

  // --- Hosts -----------------------------------------------------------------------------------

  /** The controller's spoof check on a deployment is the policy's. */
  lemma SourceCheckIsThePolicys(p: Policy, h: Header, net: Network, cfg: Config, ip: Addr, zone: ZoneName)
    requires Deployed(p, h, net, cfg)
    ensures SourceValid(cfg, ip, zone) == SourceIpValidForZone(p.zones, ip, zone)
  {
  }

  /** Every host of an accepted layout passes the anti-spoofing check where it is plugged in, and only
      with addresses of its own zone. */
  lemma HostsPassTheSpoofCheck(p: Policy, h: Header, net: Network, cfg: Config, host: string, claimed: Addr)
    requires Deployed(p, h, net, cfg) && host in net.hosts
    ensures var d, port := DpidOf(net, net.hosts[host].switch), PlugPort(net, HostPlug(host));
            && ZoneOfPort(cfg, d, port) == Some(net.hosts[host].zone)
            && SourceValid(cfg, net.hosts[host].ip, net.hosts[host].zone)
            && (SourceValid(cfg, claimed, net.hosts[host].zone) ==> ZoneForIp(p.zones, claimed) == Some(net.hosts[host].zone))
  {
    HostsEnterInTheirZone(cfg, net, PlanOf(p.zones), host);
    HostIsNoGateway(p.zones, net, host);
  }

  lemma HostIsNoGateway(zones: seq<Zone>, net: Network, host: string)
    requires ZonesWellFormed(zones) && Zoned(net, PlanOf(zones)) && host in net.hosts
    ensures HasZone(zones, net.hosts[host].zone) && net.hosts[host].ip != ZoneNamed(zones, net.hosts[host].zone).gateway
  {
  }

  /** A host of the layout is a host of its zone in the sense of the exactness theorem. */
  lemma HostsAreInTheirZone(p: Policy, h: Header, net: Network, cfg: Config, host: string)
    requires Deployed(p, h, net, cfg) && host in net.hosts
    ensures HostAt(cfg, net.hosts[host].ip, net.hosts[host].zone, CoreSide(net, host))
  {
    DeployedConfigIsOk(p, h, net, cfg);
    HostsPassTheSpoofCheck(p, h, net, cfg, host, net.hosts[host].ip);
    CoreSideIsInItsZone(cfg, net, PlanOf(p.zones), host);
  }

  lemma CoreSideIsInItsZone(cfg: Config, net: Network, plan: Plan, host: string)
    requires Wired(cfg, net, plan) && host in net.hosts
    ensures Get(cfg.maps.corePortZones, CoreSide(net, host)) == Some(net.hosts[host].zone)
  {
  }

  /** The rules of the policy file that block a kind of packet. */
  predicate FileBlocks(p: Policy, a: ZoneName, b: ZoneName, icmp: bool) {
    (a, b) in p.blockAll || (icmp && (a, b) in p.blockIcmp)
  }

  lemma AllowedUnlessTheFileBlocks(p: Policy, h: Header, net: Network, cfg: Config, x: string, y: string, icmp: bool)
    requires Deployed(p, h, net, cfg) && x in net.hosts && y in net.hosts
    ensures cfg.allowed(net.hosts[x].zone, net.hosts[y].zone, icmp) == !FileBlocks(p, net.hosts[x].zone, net.hosts[y].zone, icmp)
  {
    HostIsNoGateway(p.zones, net, x);
    HostIsNoGateway(p.zones, net, y);
  }

  /** For any two hosts of an accepted layout in different zones: no run ever sends a kind of packet
      (ICMP, or anything but) from the one zone to the other, if and only if the policy file blocks
      that kind both ways. */
  lemma IsolatedIffTheFileBlocksBothWays(p: Policy, h: Header, net: Network, cfg: Config, x: string, y: string, icmp: bool)
    requires Deployed(p, h, net, cfg) && x in net.hosts && y in net.hosts && net.hosts[x].zone != net.hosts[y].zone
    ensures var a, b := net.hosts[x].zone, net.hosts[y].zone;
            NeverSends(cfg, a, b, icmp) <==> FileBlocks(p, a, b, icmp) && FileBlocks(p, b, a, icmp)
  {
    var a, b := net.hosts[x].zone, net.hosts[y].zone;
    DeployedConfigIsOk(p, h, net, cfg);
    DeployedDaemonAgrees(p, h, net, cfg);
    HostsAreInTheirZone(p, h, net, cfg, x);
    HostsAreInTheirZone(p, h, net, cfg, y);
    AllowedUnlessTheFileBlocks(p, h, net, cfg, x, y, icmp);
    AllowedUnlessTheFileBlocks(p, h, net, cfg, y, x, icmp);
    IsolatedIffBlockedBothWays(cfg, net.hosts[x].ip, net.hosts[y].ip, a, b, CoreSide(net, x), CoreSide(net, y), icmp);
  }

  // --- Gateways --------------------------------------------------------------------------------

  /** The gateways are those of the policy file: of a zone, its address and its MAC. */
  lemma GatewaysAreThePolicys(p: Policy, h: Header, net: Network, cfg: Config, zone: Zone)
    requires Deployed(p, h, net, cfg) && zone in p.zones
    ensures zone.name in cfg.gateways && cfg.gateways[zone.name] == Gateway(zone.gateway, zone.gatewayMac) && IsGateway(cfg, zone.gateway)
  {
    assert zone.name in cfg.gateways;
    var z := ZoneOfGateway(p.zones, zone.name);
    ZoneNamesAreUnique(p.zones, z, zone);
  }

  /** And no other address is a gateway's. */
  lemma OnlyGatewaysAreGateways(p: Policy, h: Header, net: Network, cfg: Config, ip: Addr)
    requires Deployed(p, h, net, cfg) && IsGateway(cfg, ip)
    ensures exists zone :: zone in p.zones && zone.gateway == ip
  {
    var name :| name in cfg.gateways && cfg.gateways[name].ip == ip;
    var z := ZoneOfGateway(p.zones, name);
  }

  lemma ZoneOfGateway(zones: seq<Zone>, name: ZoneName) returns (z: Zone)
    requires ZonesWellFormed(zones) && name in GatewaysOf(zones)
    ensures z in zones && z.name == name && GatewaysOf(zones)[name] == Gateway(z.gateway, z.gatewayMac)
  {
    z :| z in zones && z.name == name && GatewaysOf(zones)[name] == Gateway(z.gateway, z.gatewayMac);
  }

  /** A host of the layout asks, from its own port, who has the gateway of its zone. */
  predicate AsksForItsGateway(net: Network, s: DataPlane.Step, host: string, gateway: Addr)
    requires Star(net) && host in net.hosts
  {
    && s.Arrive? && s.via.None? && s.complete && s.dpid == DpidOf(net, net.hosts[host].switch) && s.port == PlugPort(net, HostPlug(host))
    && s.frame.payload.Arp? && s.frame.payload.opcode == 1 && s.frame.payload.protosrc == net.hosts[host].ip && s.frame.payload.protodst == gateway
  }

  /** In every run of a deployment, whenever the question comes to the controller, the host is told the MAC
      the policy file gives its gateway, at its own port and at once. */
  lemma HostsLearnTheirGateway(p: Policy, h: Header, net: Network, cfg: Config, steps: seq<DataPlane.Step>, nets: seq<Net>, late: Time,
                               k: nat, host: string, zone: Zone)
    requires DeployedRun(p, h, net, cfg, steps, nets, late) && k < |steps| && host in net.hosts && zone in p.zones && zone.name == net.hosts[host].zone
    requires AsksForItsGateway(net, steps[k], host, zone.gateway)
    ensures var s, mac, hwsrc := steps[k], zone.gatewayMac, steps[k].frame.payload.hwsrc;
            nets[k + 1].trace == nets[k].trace
              + [Sent(s.c.u, s.dpid, To(s.port), Frame(mac, hwsrc, Arp(2, mac, zone.gateway, hwsrc, net.hosts[host].ip)), false)]
  {
    DeployedDaemonAgrees(p, h, net, cfg);
    HostsPassTheSpoofCheck(p, h, net, cfg, host, net.hosts[host].ip);
    HostsEnterInTheirZone(cfg, net, PlanOf(p.zones), host);
    GatewaysAreThePolicys(p, h, net, cfg, zone);
    GatewayRequestsAreAnswered(cfg, steps, nets, late, k, zone.name);
  }

  // --- Answers over the wire -------------------------------------------------------------------

  /** What _firewall_allowed gets from is_allowed, over any interleaving of short reads and writes,
      failures and reconnects, is what the Python firewall says about the zones of the packet. */
  lemma WireAnswersAreThePolicys(p: Policy, h: Header, net: Network, cfg: Config, steps: seq<Session.Step>, worlds: seq<Session.World>,
                                 i: nat, k: nat, src: ZoneName, dst: ZoneName, ip: IpPacket)
    requires Deployed(p, h, net, cfg) && Session.IsRun(h, steps, worlds)
    requires i < |worlds| && k < |worlds[i].outcomes| && worlds[i].outcomes[k].response.Some?
    requires worlds[i].outcomes[k].request
             == Wire.Request(ip.src, ip.dst, 0, 0, if ip.proto == Daemon.IPPROTO_ICMP then Daemon.IPPROTO_ICMP else 0)
    requires SourceValid(cfg, ip.src, src) && cfg.zoneOf(ip.dst) == Some(dst)
    ensures var response := worlds[i].outcomes[k].response.value;
            && |response| == 2
            && (response[0] == ALLOW) == cfg.daemon(ip.src, ip.dst, worlds[i].outcomes[k].request.protocol)
                                      == FirewallAllowed(p, Some(src), Some(dst), ip.proto == Daemon.IPPROTO_ICMP)
            && response[1] == FirstReason(p, Some(src), Some(dst), ip.proto == Daemon.IPPROTO_ICMP)
  {
    Session.EveryAnswerIsToItsOwnRequest(h, steps, worlds, i, k);
    CompilationIsCorrect(p, h, ip.src, ip.dst, worlds[i].outcomes[k].request.protocol);
  }
}
