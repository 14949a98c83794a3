/** The installed rules as a fast form of `_forward_ip`: what a leaf and the core do on their own to
    later packets of a connection is what the controller would have done. */
module FastPath {
  import opened Common
  import opened Policy
  import opened ConnTrack
  import opened OpenFlow
  import opened RouterModel
  import opened RouterInv
  import opened DataPlane
  import opened Isolation

  /** The two rules on the way of a frame: the leaf's, whose output reaches the core over the uplink,
      and the core's. A frame that enters at the core meets only the second. */
  function TwoRules(cfg: Config, e: PacketIn, zone: ZoneName, out: Port, mac: Mac, f: Frame): seq<(OutPort, Frame)>
    requires zone in cfg.gateways && CorePortFor(cfg, e.dpid, e.port).Some?
    requires e.dpid != cfg.maps.coreDpid ==> e.dpid in cfg.maps.leafUplinkPort
  {
    var core := CoreRule(cfg, e, zone, out, mac);
    if e.dpid == cfg.maps.coreDpid then Execute(core.actions, f)
    else
      var up := Execute(LeafRule(cfg, e).actions, f);
      if |up| != 1 || up[0].0 != To(cfg.maps.leafUplinkPort[e.dpid])
         || !Matches(core.m, up[0].1, CorePortFor(cfg, e.dpid, e.port).value) then []
      else Execute(core.actions, up[0].1)
  }

  /** Every frame of the connection that the first rule matches leaves the core exactly as
      `_forward_ip` would send it with the location the rules were made from: same port, same MACs,
      TTL one lower. Only an expiring TTL is treated differently: the switch drops the packet where
      the controller would answer with an ICMP error. */
  lemma RulesRefineForwardIp(cfg: Config, r: Router, e: PacketIn, zone: ZoneName, out: Port, mac: Mac, f: Frame)
    requires ConfigOk(cfg) && zone in cfg.gateways && cfg.maps.coreDpid in r.connections
    requires e.frame.payload.Ip? && ZoneOfPort(cfg, e.dpid, e.port).Some?
    requires Matches(MatchOf(e.frame, e.port), f, e.port)
    ensures f.payload.Ip? && CorePortFor(cfg, e.dpid, e.port).Some?
    ensures e.dpid != cfg.maps.coreDpid ==> e.dpid in cfg.maps.leafUplinkPort
    ensures var job, sent := Job(e.dpid, e.port, f.src, f.payload.ip), TwoRules(cfg, e, zone, out, mac, f);
            if f.payload.ip.ttl > 1 then
              && |sent| == 1
              && ForwardIp(cfg, r, job, zone, out, mac) == Send(r, [PacketOut(cfg.maps.coreDpid, sent[0].1, sent[0].0)])
            else sent == []
  {
    CorePortIsInTheZone(cfg, e.dpid, e.port);
    RouteActionsRoute(cfg.gateways[zone].mac, mac, out, f);
    if e.dpid != cfg.maps.coreDpid {
      OutputSends(To(cfg.maps.leafUplinkPort[e.dpid]), f);
    }
  }

  /** The core's rule first, then the leaf's if the packet came in at a leaf. */
  function RulesFor(cfg: Config, e: PacketIn, zone: ZoneName, loc: Location): seq<Msg>
    requires zone in cfg.gateways && CorePortFor(cfg, e.dpid, e.port).Some?
    requires e.dpid != cfg.maps.coreDpid ==> e.dpid in cfg.maps.leafUplinkPort
  {
    var m, gateway := MatchOf(e.frame, e.port), cfg.gateways[zone].mac;
    [FlowMod(cfg.maps.coreDpid, m.(inPort := CorePortFor(cfg, e.dpid, e.port).value), 30.0, 60.0,
             [SetDlSrc(gateway), SetDlDst(loc.mac), DecTtl, Output(To(loc.corePort))], None)]
    + if e.dpid == cfg.maps.coreDpid then [] else [FlowMod(e.dpid, m, 30.0, 60.0, [Output(To(cfg.maps.leafUplinkPort[e.dpid]))], None)]
  }

  /** The first packet of a connection takes the same way as the packets its rules will carry: the
      rules go out first, the core's before the leaf's, all for one location. */
  lemma FirstPacketGoesTheSameWay(cfg: Config, r: Router, e: PacketIn, zone: ZoneName, u: Time)
    requires ConfigOk(cfg) && zone in cfg.gateways && cfg.maps.coreDpid in r.connections
    requires e.frame.payload.Ip? && ZoneOfPort(cfg, e.dpid, e.port).Some?
    requires e.frame.payload.ip.dst in r.ipToLoc && e.frame.payload.ip.ttl > 1
    ensures CorePortFor(cfg, e.dpid, e.port).Some?
    ensures e.dpid != cfg.maps.coreDpid ==> e.dpid in cfg.maps.leafUplinkPort
    ensures var loc := r.ipToLoc[e.frame.payload.ip.dst];
            var sent := TwoRules(cfg, e, zone, loc.corePort, loc.mac, e.frame);
            && |sent| == 1
            && Route(cfg, r, e, zone, u) == Send(r,
                 RulesFor(cfg, e, zone, loc) + [PacketOut(cfg.maps.coreDpid, sent[0].1, sent[0].0)])
  {
    var loc := r.ipToLoc[e.frame.payload.ip.dst];
    CorePortIsInTheZone(cfg, e.dpid, e.port);
    var rules := RulesFor(cfg, e, zone, loc);
    RulesAreInstalled(cfg, r, e, zone, loc);
    var job := Job(e.dpid, e.port, e.frame.src, e.frame.payload.ip);
    assert Route(cfg, r, e, zone, u) == ForwardIp(cfg, Send(r, rules), job, zone, loc.corePort, loc.mac);
    RulesRefineForwardIp(cfg, Send(r, rules), e, zone, loc.corePort, loc.mac, e.frame);
    var sent := TwoRules(cfg, e, zone, loc.corePort, loc.mac, e.frame);
    SendingTwice(r, rules, [PacketOut(cfg.maps.coreDpid, sent[0].1, sent[0].0)]);
  }

  lemma SendingTwice(r: Router, first: seq<Msg>, second: seq<Msg>)
    ensures Send(Send(r, first), second) == Send(r, first + second)
  {
  }

  lemma RulesAreInstalled(cfg: Config, r: Router, e: PacketIn, zone: ZoneName, loc: Location)
    requires zone in cfg.gateways && CorePortFor(cfg, e.dpid, e.port).Some? && cfg.maps.coreDpid in r.connections
    requires e.dpid != cfg.maps.coreDpid ==> e.dpid in cfg.maps.leafUplinkPort
    ensures InstallRouteFlows(cfg, r, e, zone, loc.corePort, loc.mac) == Send(r, RulesFor(cfg, e, zone, loc))
  {
  }

  /** In every run, whatever rule at the core takes a cross-zone packet: it sends nothing, or the
      packet one hop on with the gateway MAC of the destination's zone, TTL one lower, through a
      port of that zone, which is never the port the packet came in through. */
  lemma CoreRulesRouteOnward(cfg: Config, steps: seq<Step>, nets: seq<Net>, late: Time, i: nat, m: Match, f: Frame, port: Port)
    requires InRun(cfg, steps, nets, late, i) && Hits(nets[i], cfg.maps.coreDpid, m, f, port)
    requires f.payload.Ip? && !SameZone(cfg, f.payload.ip.src, f.payload.ip.dst)
    ensures var sent, ip := Execute(TableOf(nets[i], cfg.maps.coreDpid)[m].actions, f), f.payload.ip;
            || sent == []
            || (&& |sent| == 1 && sent[0].0.To? && sent[0].0.port != port
                && cfg.zoneOf(ip.dst).Some? && cfg.zoneOf(ip.dst).value in cfg.gateways
                && Get(cfg.maps.corePortZones, sent[0].0.port) == cfg.zoneOf(ip.dst)
                && ip.ttl > 1
                && sent[0].1 == Frame(cfg.gateways[cfg.zoneOf(ip.dst).value].mac, sent[0].1.dst, Ip(ip.(ttl := ip.ttl - 1))))
  {
    RunKeepsInv(cfg, steps, nets, late, i);
    var rule := TableOf(nets[i], cfg.maps.coreDpid)[m];
    assert RuleOk(cfg, nets[i].router.log, rule.installed, cfg.maps.coreDpid, m, rule.hard, rule.actions);
    if rule.actions != [] {
      CoreRuleRoutes(cfg, nets[i].router.log, m, rule, f, port);
    }
  }

  lemma CoreRuleRoutes(cfg: Config, log: seq<Obs>, m: Match, rule: Rule, f: Frame, port: Port)
    requires MapsOk(cfg.maps) && RuleOk(cfg, log, rule.installed, cfg.maps.coreDpid, m, rule.hard, rule.actions)
    requires Matches(m, f, port) && f.payload.Ip? && !SameZone(cfg, f.payload.ip.src, f.payload.ip.dst) && rule.actions != []
    ensures RoutesTo(cfg, m, rule.actions, f.payload.ip.dst)
    ensures var sent, ip := Execute(rule.actions, f), f.payload.ip;
            || sent == []
            || (&& ip.ttl > 1 && |sent| == 1 && sent[0].0 == rule.actions[3].out
                && sent[0].1 == Frame(cfg.gateways[cfg.zoneOf(ip.dst).value].mac, rule.actions[1].mac, Ip(ip.(ttl := ip.ttl - 1))))
  {
    assert cfg.maps.coreDpid !in cfg.maps.leafUplinkPort.Keys;
    RouteActionsRoute(cfg.gateways[cfg.zoneOf(f.payload.ip.dst).value].mac, rule.actions[1].mac, rule.actions[3].out.port, f);
  }

  // --- How exact a rule is ---------------------------------------------------------------------

  /** Every IP frame the match takes belongs to the connection of the frame it was made from. */
  ghost predicate TakesOneConnection(m: Match, f: Frame)
    requires f.payload.Ip?
  {
    forall g: Frame, port: Port :: Matches(m, g, port) && g.payload.Ip? ==> SameConnection(f.payload.ip, g.payload.ip)
  }

  /** A rule for a TCP, UDP or ICMP packet takes exactly its connection (addresses, protocol, and ports
      or ICMP type and code) if and only if POX could parse the transport header. Otherwise the
      transport fields are wild, and the rule takes every connection between the two hosts. */
  lemma RulesAreExactIffParsed(f: Frame, port: Port)
    requires f.payload.Ip? && HasTransport(f.payload.ip.proto)
    ensures TakesOneConnection(MatchOf(f, port), f) <==> f.payload.ip.parsed
  {
    if !f.payload.ip.parsed {
      var other := f.(payload := Ip(f.payload.ip.(tpSrc := f.payload.ip.tpSrc + 1)));
      assert Matches(MatchOf(f, port), other, port) && !SameConnection(f.payload.ip, other.payload.ip);
    }
  }

  /** A rule never takes a frame that came in elsewhere, bears other MACs or another type, or claims other
      addresses: a spoofed packet cannot ride the rule of an allowed connection. */
  lemma SpoofedPacketsRideNoRule(f: Frame, port: Port, g: Frame, at: Port)
    requires f.payload.Ip? && Matches(MatchOf(f, port), g, at)
    ensures at == port && g.src == f.src && g.dst == f.dst && g.payload.Ip?
    ensures g.payload.ip.src == f.payload.ip.src && g.payload.ip.dst == f.payload.ip.dst && g.payload.ip.proto == f.payload.ip.proto
  {
  }
}
