/** A packet-in, whatever the frame, keeps the router's invariant and sends only messages that
    satisfy theirs. */
module RouterPacketIn {
  import opened Common
  import opened Ipv4
  import opened Policy
  import opened ConnTrack
  import opened OpenFlow
  import opened RouterModel
  import opened RouterInv
  import opened RouterSteps

  /** Every live timer is at most `late` seconds late at time `u`. */
  ghost predicate TimersServed(timers: map<TimerId, Timer>, u: Time, late: Time) {
    forall id :: id in timers ==> u <= timers[id].due + late
  }

  lemma PendingLater(cfg: Config, r: Router, now: Time, u: Time, late: Time)
    requires PendingOk(cfg, r.log, r.pending, r.timers, r.nextTimer, now, late)
    requires now <= u && TimersServed(r.timers, u, late)
    ensures PendingOk(cfg, r.log, r.pending, r.timers, r.nextTimer, u, late)
  {
  }

  lemma PendingWithLongerLog(cfg: Config, r: Router, more: seq<Obs>, now: Time, late: Time)
    requires PendingOk(cfg, r.log, r.pending, r.timers, r.nextTimer, now, late)
    ensures PendingOk(cfg, r.log + more, r.pending, r.timers, r.nextTimer, now, late)
  {
  }

  lemma RouterLater(cfg: Config, r: Router, now: Time, u: Time, late: Time)
    requires RouterOk(cfg, r, now, late) && now <= u && TimersServed(r.timers, u, late)
    ensures RouterOk(cfg, r, u, late)
  {
  }

  // --- Learning --------------------------------------------------------------------------------

  /** MAC tables, connections and the outbox play no part in the invariant. */
  lemma SendingKeepsOk(cfg: Config, r: Router, r': Router, u: Time, late: Time)
    requires RouterOk(cfg, r, u, late) && r' == r.(outbox := r'.outbox, macTable := r'.macTable, connections := r'.connections)
    ensures RouterOk(cfg, r', u, late)
  {
  }

  lemma LearningKeepsOk(cfg: Config, r: Router, r': Router, e: PacketIn, ip: Addr, mac: Mac, zone: ZoneName, now: Time, late: Time)
    requires ConfigOk(cfg) && RouterOk(cfg, r, now, late)
    requires ZoneOfPort(cfg, e.dpid, e.port) == Some(zone) && SourceValid(cfg, ip, zone)
    requires r' == Learn(cfg, r, e.dpid, e.port, ip, mac, zone)
    ensures r' == r.(macTable := r'.macTable, ipToLoc := r'.ipToLoc)
    ensures RouterOk(cfg, r', now, late) && ip in r'.ipToLoc
  {
  }

  // --- Checking --------------------------------------------------------------------------------

  /** The anti-spoofing check makes the two firewalls agree: the source address the daemon
      classifies lies in the zone of the port the packet came in on. */
  lemma BothFirewallsSayPolicy(cfg: Config, backend: Backend, e: PacketIn, src: ZoneName, dst: ZoneName)
    requires DaemonAgrees(cfg) && e.frame.payload.Ip?
    requires SourceValid(cfg, e.frame.payload.ip.src, src) && cfg.zoneOf(e.frame.payload.ip.dst) == Some(dst)
    ensures var ip := e.frame.payload.ip;
            FirewallSays(cfg, backend, src, dst, ip) == PolicyAllows(cfg, ip.src, ip.dst, ip.proto)
  {
  }

  lemma CheckKeepsOk(cfg: Config, r: Router, ip: IpPacket, c: Readings, now: Time, late: Time)
    requires RouterOk(cfg, r, now, late) && now <= c.t <= c.s <= c.u && TimersServed(r.timers, c.u, late)
    requires cfg.zoneOf(ip.src).Some? && cfg.zoneOf(ip.dst).Some? && !SameZone(cfg, ip.src, ip.dst)
    ensures RouterOk(cfg, CheckConnection(cfg, r, ip, PolicyAllows(cfg, ip.src, ip.dst, ip.proto), c), c.u, late)
  {
    var allowed := PolicyAllows(cfg, ip.src, ip.dst, ip.proto);
    var r' := CheckConnection(cfg, r, ip, allowed, c);
    var o := r'.log[|r.log|];
    assert (r.log + [o])[..|r.log|] == r.log;
    assert CheckOk(cfg, r.log + [o], |r.log|);
    LogGrows(cfg, r.log, r.conns, now, o);
    PendingLater(cfg, r, now, c.u, late);
    PendingWithLongerLog(cfg, r, [o], c.u, late);
  }

  // --- Routing ---------------------------------------------------------------------------------

  /** The packet `e` carries has just passed the check, on its way to another zone. */
  ghost predicate JustPassed(cfg: Config, log: seq<Obs>, e: PacketIn, zone: ZoneName, u: Time) {
    && e.frame.payload.Ip?
    && (var ip := e.frame.payload.ip;
        && cfg.zoneOf(ip.src).Some? && cfg.zoneOf(ip.src) == ZoneOfPort(cfg, e.dpid, e.port)
        && cfg.zoneOf(ip.dst) == Some(zone) && cfg.zoneOf(ip.src) != Some(zone)
        && exists o :: o in log && Passes(o) && o.ip == ip && o.u == u)
    && !IsLeafUplink(cfg, e.dpid, e.port)
  }

  lemma DropRuleIsOk(cfg: Config, log: seq<Obs>, e: PacketIn, o: Obs, u: Time, late: Time)
    requires o in log && o.Check? && o.verdict == Drop && e.frame.payload.Ip? && o.ip == e.frame.payload.ip && o.u == u
    ensures MsgOk(cfg, log, u, FlowMod(e.dpid, MatchOf(e.frame, e.port), DROP_FLOW_IDLE_TIMEOUT, DROP_FLOW_HARD_TIMEOUT, [], None), late)
  {
  }

  lemma CoreRuleIsOk(cfg: Config, log: seq<Obs>, e: PacketIn, zone: ZoneName, out: Port, mac: Mac, u: Time, late: Time)
    requires ConfigOk(cfg) && JustPassed(cfg, log, e, zone, u) && zone in cfg.gateways
    requires out in cfg.maps.corePortZones && cfg.maps.corePortZones[out] == zone && CorePortFor(cfg, e.dpid, e.port).Some?
    ensures MsgOk(cfg, log, u, CoreRule(cfg, e, zone, out, mac), late)
  {
  }

  lemma LeafRuleIsOk(cfg: Config, log: seq<Obs>, e: PacketIn, zone: ZoneName, u: Time, late: Time)
    requires ConfigOk(cfg) && JustPassed(cfg, log, e, zone, u) && e.dpid in cfg.maps.leafUplinkPort
    ensures MsgOk(cfg, log, u, LeafRule(cfg, e), late)
  {
  }

  lemma InstallIsOk(cfg: Config, r: Router, r': Router, e: PacketIn, zone: ZoneName, out: Port, mac: Mac, u: Time, late: Time)
    requires ConfigOk(cfg) && JustPassed(cfg, r.log, e, zone, u) && zone in cfg.gateways && OutboxOk(cfg, r.log, u, r.outbox, late)
    requires out in cfg.maps.corePortZones && cfg.maps.corePortZones[out] == zone
    requires CorePortFor(cfg, e.dpid, e.port).Some? && (e.dpid != cfg.maps.coreDpid ==> e.dpid in cfg.maps.leafUplinkPort)
    requires r' == InstallRouteFlows(cfg, r, e, zone, out, mac)
    ensures r' == r.(outbox := r'.outbox) && OutboxOk(cfg, r.log, u, r'.outbox, late)
  {
    CoreRuleIsOk(cfg, r.log, e, zone, out, mac, u, late);
    if e.dpid == cfg.maps.coreDpid {
      MoreIsOk(cfg, r, [CoreRule(cfg, e, zone, out, mac)] + [], u, late);
    } else {
      LeafRuleIsOk(cfg, r.log, e, zone, u, late);
      MoreIsOk(cfg, r, [CoreRule(cfg, e, zone, out, mac)] + [LeafRule(cfg, e)], u, late);
    }
  }

  lemma RouteToKnownHostIsOk(cfg: Config, r: Router, r1: Router, r': Router, e: PacketIn, zone: ZoneName, loc: Location, u: Time, late: Time)
    requires ConfigOk(cfg) && OutboxOk(cfg, r.log, u, r.outbox, late)
    requires JustPassed(cfg, r.log, e, zone, u) && zone in cfg.gateways
    requires loc.corePort in cfg.maps.corePortZones && cfg.maps.corePortZones[loc.corePort] == zone
    requires CorePortFor(cfg, e.dpid, e.port).Some? && (e.dpid != cfg.maps.coreDpid ==> e.dpid in cfg.maps.leafUplinkPort)
    requires r1 == if e.frame.payload.ip.ttl > 1 then InstallRouteFlows(cfg, r, e, zone, loc.corePort, loc.mac) else r
    requires r' == ForwardIp(cfg, r1, Job(e.dpid, e.port, e.frame.src, e.frame.payload.ip), zone, loc.corePort, loc.mac)
    ensures r' == r.(outbox := r'.outbox) && OutboxOk(cfg, r.log, u, r'.outbox, late)
  {
    if e.frame.payload.ip.ttl > 1 {
      InstallIsOk(cfg, r, r1, e, zone, loc.corePort, loc.mac, u, late);
    }
    var job := Job(e.dpid, e.port, e.frame.src, e.frame.payload.ip);
    assert Forwardable(cfg, r1.log, job, zone, loc.corePort, u, late);
    ForwardIsOk(cfg, r1, job, zone, loc.corePort, loc.mac, u, late);
  }

  lemma RouteKeepsOk(cfg: Config, r: Router, r': Router, e: PacketIn, zone: ZoneName, u: Time, late: Time)
    requires ConfigOk(cfg) && RouterOk(cfg, r, u, late) && OutboxOk(cfg, r.log, u, r.outbox, late) && late >= 0.0
    requires JustPassed(cfg, r.log, e, zone, u) && zone in cfg.gateways
    requires r' == Route(cfg, r, e, zone, u)
    ensures RouterOk(cfg, r', u, late) && r'.log == r.log && OutboxOk(cfg, r.log, u, r'.outbox, late)
  {
    var ip := e.frame.payload.ip;
    CorePortIsInTheZone(cfg, e.dpid, e.port);
    if ip.dst in r.ipToLoc {
      var loc := r.ipToLoc[ip.dst];
      var r1 := if ip.ttl > 1 then InstallRouteFlows(cfg, r, e, zone, loc.corePort, loc.mac) else r;
      RouteToKnownHostIsOk(cfg, r, r1, r', e, zone, loc, u, late);
      SendingKeepsOk(cfg, r, r', u, late);
    } else {
      QueueKeepsOk(cfg, r, r', Job(e.dpid, e.port, e.frame.src, ip), zone, u, late);
    }
  }

  // --- Handlers --------------------------------------------------------------------------------

  /** What a packet-in handler must leave behind. */
  ghost predicate Handled(cfg: Config, r: Router, r': Router, u: Time, late: Time) {
    RouterOk(cfg, r', u, late) && r.log <= r'.log && OutboxOk(cfg, r'.log, u, r'.outbox, late)
  }

  lemma CrossZoneIsHandled(cfg: Config, r: Router, r': Router, e: PacketIn, c: Readings, src: ZoneName, dst: ZoneName, now: Time, late: Time)
    requires ConfigOk(cfg) && DaemonAgrees(cfg) && RouterOk(cfg, r, now, late) && r.outbox == [] && late >= 0.0
    requires now <= c.t <= c.s <= c.u && TimersServed(r.timers, c.u, late)
    requires e.frame.payload.Ip? && !IsLeafUplink(cfg, e.dpid, e.port)
    requires ZoneOfPort(cfg, e.dpid, e.port) == Some(src) && SourceValid(cfg, e.frame.payload.ip.src, src)
    requires cfg.zoneOf(e.frame.payload.ip.dst) == Some(dst) && dst != src && dst in cfg.gateways
    requires r' == HandleCrossZoneIp(cfg, r, e, src, dst, c)
    ensures Handled(cfg, r, r', c.u, late)
  {
    var ip := e.frame.payload.ip;
    var allowed := FirewallSays(cfg, c.backend, src, dst, ip);
    BothFirewallsSayPolicy(cfg, c.backend, e, src, dst);
    CheckKeepsOk(cfg, r, ip, c, now, late);
    CheckedIsHandled(cfg, r, CheckConnection(cfg, r, ip, allowed, c), r', e, src, dst, c.u, late);
  }

  lemma CheckedIsHandled(cfg: Config, r: Router, checked: Router, r': Router, e: PacketIn, src: ZoneName, dst: ZoneName, u: Time, late: Time)
    requires ConfigOk(cfg) && RouterOk(cfg, checked, u, late) && checked.outbox == [] && late >= 0.0
    requires e.frame.payload.Ip? && !IsLeafUplink(cfg, e.dpid, e.port)
    requires ZoneOfPort(cfg, e.dpid, e.port) == Some(src) && cfg.zoneOf(e.frame.payload.ip.src) == Some(src)
    requires cfg.zoneOf(e.frame.payload.ip.dst) == Some(dst) && dst != src && dst in cfg.gateways
    requires |checked.log| == |r.log| + 1 && r.log <= checked.log
    requires var o := checked.log[|r.log|];
             && o.Check? && o.ip == e.frame.payload.ip && o.u == u
             && r' == if o.verdict == Drop then InstallDropFlow(checked, e) else Route(cfg, checked, e, dst, u)
    ensures Handled(cfg, r, r', u, late)
  {
    var o := checked.log[|r.log|];
    if o.verdict == Drop {
      DropRuleIsOk(cfg, checked.log, e, o, u, late);
      SendingKeepsOk(cfg, checked, r', u, late);
    } else {
      assert o in checked.log && Passes(o);
      RouteKeepsOk(cfg, checked, r', e, dst, u, late);
    }
  }

  lemma SameZoneIsHandled(cfg: Config, r: Router, r': Router, e: PacketIn, u: Time, late: Time)
    requires RouterOk(cfg, r, u, late) && r.outbox == [] && r' == L2Forward(cfg, r, e)
    requires e.frame.payload.Ip? && SameZone(cfg, e.frame.payload.ip.src, e.frame.payload.ip.dst)
    ensures Handled(cfg, r, r', u, late)
  {
    L2ForwardIsOk(cfg, r, e, u, late);
    SendingKeepsOk(cfg, r, r', u, late);
  }

  lemma FloodIsHandled(cfg: Config, r: Router, r': Router, e: PacketIn, u: Time, late: Time)
    requires RouterOk(cfg, r, u, late) && r.outbox == [] && r' == FloodInZone(cfg, r, e) && !e.frame.payload.Ip?
    ensures Handled(cfg, r, r', u, late)
  {
    FloodIsOk(cfg, r, e, u, late);
    SendingKeepsOk(cfg, r, r', u, late);
  }

  lemma HonestIpIsHandled(cfg: Config, r: Router, r': Router, e: PacketIn, src: ZoneName, c: Readings, now: Time, late: Time)
    requires ConfigOk(cfg) && DaemonAgrees(cfg) && RouterOk(cfg, r, now, late) && r.outbox == [] && late >= 0.0
    requires now <= c.t <= c.s <= c.u && TimersServed(r.timers, c.u, late)
    requires e.frame.payload.Ip? && !IsLeafUplink(cfg, e.dpid, e.port)
    requires ZoneOfPort(cfg, e.dpid, e.port) == Some(src) && SourceValid(cfg, e.frame.payload.ip.src, src)
    requires r' == HandleHonestIp(cfg, r, e, src, c)
    ensures Handled(cfg, r, r', c.u, late)
  {
    var dst := cfg.zoneOf(e.frame.payload.ip.dst);
    if dst.Some? && dst.value != src && !IsGateway(cfg, e.frame.payload.ip.dst) {
      CrossZoneIsHandled(cfg, r, r', e, c, src, dst.value, now, late);
    } else {
      RouterLater(cfg, r, now, c.u, late);
      if r' != r {
        SameZoneIsHandled(cfg, r, r', e, c.u, late);
      }
    }
  }

  lemma IpIsHandled(cfg: Config, r: Router, r': Router, e: PacketIn, c: Readings, now: Time, late: Time)
    requires ConfigOk(cfg) && DaemonAgrees(cfg) && RouterOk(cfg, r, now, late) && r.outbox == [] && late >= 0.0
    requires now <= c.t <= c.s <= c.u && TimersServed(r.timers, c.u, late)
    requires e.frame.payload.Ip? && !IsLeafUplink(cfg, e.dpid, e.port)
    requires r' == HandleIp(cfg, r, e, c)
    ensures Handled(cfg, r, r', c.u, late)
  {
    var ip, src := e.frame.payload.ip, ZoneOfPort(cfg, e.dpid, e.port);
    if src.None? || !SourceValid(cfg, ip.src, src.value) {
      RouterLater(cfg, r, now, c.u, late);
    } else {
      var r1 := Learn(cfg, r, e.dpid, e.port, ip.src, e.frame.src, src.value);
      LearningKeepsOk(cfg, r, r1, e, ip.src, e.frame.src, src.value, now, late);
      HonestIpIsHandled(cfg, r1, r', e, src.value, c, now, late);
    }
  }

  lemma ArpAnswerIsHandled(cfg: Config, r: Router, m: Msg, u: Time, late: Time)
    requires RouterOk(cfg, r, u, late) && r.outbox == [] && m.PacketOut? && m.frame.payload.Arp?
    ensures Handled(cfg, r, Send(r, [m]), u, late)
  {
    SendingKeepsOk(cfg, r, Send(r, [m]), u, late);
  }

  lemma HonestArpIsHandled(cfg: Config, r: Router, r': Router, e: PacketIn, src: ZoneName, u: Time, late: Time)
    requires ConfigOk(cfg) && RouterOk(cfg, r, u, late) && r.outbox == [] && 0.0 <= late
    requires forall ip :: ip in r.pending ==> r.pending[ip].zone in cfg.gateways
    requires e.frame.payload.Arp? && e.frame.payload.protosrc in r.ipToLoc && src in cfg.gateways
    requires r' == HandleHonestArp(cfg, r, e, src)
    ensures Handled(cfg, r, r', u, late)
  {
    var a := e.frame.payload;
    if a.opcode == ARP_REQUEST && IsGateway(cfg, a.protodst) {
      ArpAnswerIsHandled(cfg, r, PacketOut(e.dpid, ArpReplyFrame(a.protodst, cfg.gateways[src].mac, a.protosrc, a.hwsrc), To(e.port)), u, late);
    } else if a.opcode == ARP_REPLY && IsGateway(cfg, a.protodst) {
      ResolveKeepsOk(cfg, r, a.protosrc, a.hwsrc, u, late);
    } else {
      FloodIsHandled(cfg, r, r', e, u, late);
    }
  }

  lemma ArpIsHandled(cfg: Config, r: Router, r': Router, e: PacketIn, u: Time, late: Time)
    requires ConfigOk(cfg) && RouterOk(cfg, r, u, late) && r.outbox == [] && 0.0 <= late
    requires forall ip :: ip in r.pending ==> r.pending[ip].zone in cfg.gateways
    requires e.frame.payload.Arp? && r' == HandleArp(cfg, r, e)
    ensures Handled(cfg, r, r', u, late)
  {
    var a, src := e.frame.payload, ZoneOfPort(cfg, e.dpid, e.port);
    if src.Some? && SourceValid(cfg, a.protosrc, src.value) {
      var r1 := Learn(cfg, r, e.dpid, e.port, a.protosrc, a.hwsrc, src.value);
      LearningKeepsOk(cfg, r, r1, e, a.protosrc, a.hwsrc, src.value, u, late);
      HonestArpIsHandled(cfg, r1, r', e, src.value, u, late);
    }
  }

  /** Any packet-in. A frame from a leaf's uplink must be one that may arrive there. */
  lemma PacketInIsHandled(cfg: Config, r: Router, r': Router, e: PacketIn, c: Readings, now: Time, late: Time)
    requires ConfigOk(cfg) && DaemonAgrees(cfg) && RouterOk(cfg, r, now, late) && r.outbox == [] && 0.0 <= late
    requires now <= c.t <= c.s <= c.u && TimersServed(r.timers, c.u, late)
    requires IsLeafUplink(cfg, e.dpid, e.port) ==> TransitOk(cfg, r.log, e.frame)
    requires forall ip :: ip in r.pending ==> r.pending[ip].zone in cfg.gateways
    requires r' == HandlePacketIn(cfg, r, e, c)
    ensures Handled(cfg, r, r', c.u, late)
  {
    RouterLater(cfg, r, now, c.u, late);
    if e.complete && !e.frame.payload.Lldp? {
      if IsLeafUplink(cfg, e.dpid, e.port) {
        TransitIsOk(cfg, r, r', e, c.u, late);
        SendingKeepsOk(cfg, r, r', c.u, late);
      } else {
        match e.frame.payload {
          case Arp(_, _, _, _, _) => ArpIsHandled(cfg, r, r', e, c.u, late);
          case Ip(_) => IpIsHandled(cfg, r, r', e, c, now, late);
          case _ => FloodIsHandled(cfg, r, r', e, c.u, late);
        }
      }
    }
  }
}
