/** controller.py's ZoneRouter as an object: each method updates the fields in place and is proved
    to do exactly what RouterModel.dfy says of the state. */
module ZoneRouter {
  import opened Common
  import opened Ipv4
  import opened Policy
  import opened ConnTrack
  import opened OpenFlow
  import opened RouterModel

  class ZoneRouter {
    const cfg: Config
    const useDaemon: bool
    const conns: ConnectionTable
    var connections: set<Dpid>
    var macTable: map<Dpid, map<Mac, Port>>
    var ipToLoc: map<Addr, Location>
    var pending: map<Addr, Entry>
    var timers: map<TimerId, Timer>
    var nextTimer: TimerId
    var outbox: seq<Msg>
    ghost var log: seq<Obs>
    ghost var queued: map<Addr, seq<Job>>
    ghost var released: map<Addr, seq<Release>>
    ghost var rounds: multiset<TimerId>

    /** The fields as one value. */
    ghost function State(): Router
      reads this, conns
    {
      Router(connections, macTable, ipToLoc, pending, timers, nextTimer, conns.lastSeen, outbox, log, queued, released, rounds)
    }

    ghost predicate Valid()
      reads this
    {
      && ConfigOk(cfg) && conns.idleTimeout == IDLE_TIMEOUT
      && forall ip :: ip in pending ==> pending[ip].zone in cfg.gateways
    }

    constructor (cfg: Config, useDaemon: bool, clock: Clock)
      requires ConfigOk(cfg)
      ensures Valid() && this.cfg == cfg && this.useDaemon == useDaemon && fresh(conns) && conns.clock == clock
      ensures State() == RouterModel.INITIAL
    {
      this.cfg, this.useDaemon := cfg, useDaemon;
      conns := new ConnectionTable(IDLE_TIMEOUT, clock);
      connections, macTable, ipToLoc, pending, timers, nextTimer, outbox := {}, map[], map[], map[], map[], 0, [];
      log, queued, released, rounds := [], map[], map[], multiset{};
    }

    // --- Sending -------------------------------------------------------------------------------

    method PacketOutAll(dpid: Dpid, f: Frame, ports: seq<Port>, except: Option<Port>)
      modifies this`outbox
      ensures State() == Send(old(State()), OutAll(dpid, f, ports, except))
    {
      for i := 0 to |ports|
        invariant outbox + OutAll(dpid, f, ports[i..], except) == old(outbox) + OutAll(dpid, f, ports, except)
      {
        if except != Some(ports[i]) {
          outbox := outbox + [PacketOut(dpid, f, To(ports[i]))];
        }
        assert ports[i..][1..] == ports[i + 1..];
      }
      assert ports[|ports|..] == [];
    }

    method SendArpProbe(ip: Addr, zone: ZoneName, ghost entry: TimerId)
      requires zone in cfg.gateways
      modifies this`outbox, this`rounds
      ensures State() == RouterModel.SendArpProbe(cfg, old(State()), ip, zone, entry)
    {
      rounds := rounds + multiset{entry};
      if cfg.maps.coreDpid in connections {
        var ports := if zone in cfg.zoneCorePorts then cfg.zoneCorePorts[zone] else [];
        PacketOutAll(cfg.maps.coreDpid, ProbeFrame(cfg.gateways[zone], ip), ports, None);
      }
    }

    method SendIcmpError(job: Job, icmpType: nat, code: nat)
      requires Valid()
      modifies this`outbox
      ensures State() == RouterModel.SendIcmpError(cfg, old(State()), job, icmpType, code)
    {
      if job.dpid !in connections {
        return;
      }
      var zone := ZoneOfPort(cfg, job.dpid, job.port);
      if zone.None? {
        return;
      }
      outbox := outbox + [PacketOut(job.dpid, IcmpErrorFrame(cfg.gateways[zone.value], job, icmpType, code), To(job.port))];
    }

    // --- Layer 2 -------------------------------------------------------------------------------

    method LearnMac(dpid: Dpid, mac: Mac, port: Port)
      modifies this`macTable
      ensures State() == RouterModel.LearnMac(old(State()), dpid, mac, port)
    {
      if dpid !in macTable {
        macTable := macTable[dpid := map[]];
      }
      macTable := macTable[dpid := macTable[dpid][mac := port]];
    }

    method Learn(dpid: Dpid, port: Port, ip: Addr, mac: Mac, zone: ZoneName)
      modifies this`macTable, this`ipToLoc
      ensures State() == RouterModel.Learn(cfg, old(State()), dpid, port, ip, mac, zone)
    {
      LearnMac(dpid, mac, port);
      var corePort := CorePortFor(cfg, dpid, port);
      if corePort.Some? {
        ipToLoc := ipToLoc[ip := Location(corePort.value, mac, zone)];
      }
    }

    method FloodInZone(e: PacketIn)
      modifies this`outbox
      ensures State() == RouterModel.FloodInZone(cfg, old(State()), e)
    {
      if e.dpid == cfg.maps.coreDpid {
        if e.port in cfg.maps.corePortZones {
          PacketOutAll(e.dpid, e.frame, PortsOfZone(cfg, cfg.maps.corePortZones[e.port]), Some(e.port));
        }
      } else {
        outbox := outbox + [PacketOut(e.dpid, e.frame, Flood)];
      }
    }

    method L2Forward(e: PacketIn)
      modifies this`outbox
      ensures State() == RouterModel.L2Forward(cfg, old(State()), e)
    {
      if e.dpid !in macTable || e.frame.dst !in macTable[e.dpid] {
        FloodInZone(e);
        return;
      }
      var out := macTable[e.dpid][e.frame.dst];
      outbox := outbox + [FlowMod(e.dpid, MatchOf(e.frame, e.port), L2_FLOW_IDLE_TIMEOUT, L2_FLOW_HARD_TIMEOUT,
                                  [Output(To(out))], Some(e.frame))];
    }

    method HandleTransit(e: PacketIn)
      modifies this`outbox, this`macTable
      ensures State() == RouterModel.HandleTransit(cfg, old(State()), e)
    {
      LearnMac(e.dpid, e.frame.src, e.port);
      if IsMulticast(e.frame.dst) {
        FloodInZone(e);
      } else {
        L2Forward(e);
      }
    }

    // --- Routing -------------------------------------------------------------------------------

    method ForwardIp(job: Job, zone: ZoneName, out: Port, mac: Mac)
      requires Valid() && zone in cfg.gateways
      modifies this`outbox
      ensures State() == RouterModel.ForwardIp(cfg, old(State()), job, zone, out, mac)
    {
      if job.ip.ttl <= 1 {
        SendIcmpError(job, ICMP_TIME_EXCEEDED, ICMP_CODE_TTL_EXCEEDED);
        return;
      }
      if cfg.maps.coreDpid !in connections {
        return;
      }
      var f := Frame(cfg.gateways[zone].mac, mac, Ip(job.ip.(ttl := job.ip.ttl - 1)));
      outbox := outbox + [PacketOut(cfg.maps.coreDpid, f, To(out))];
    }

    method InstallDropFlow(e: PacketIn)
      modifies this`outbox
      ensures State() == RouterModel.InstallDropFlow(old(State()), e)
    {
      outbox := outbox + [FlowMod(e.dpid, MatchOf(e.frame, e.port), DROP_FLOW_IDLE_TIMEOUT, DROP_FLOW_HARD_TIMEOUT, [], None)];
    }

    method InstallRouteFlows(e: PacketIn, zone: ZoneName, out: Port, mac: Mac)
      requires Valid() && zone in cfg.gateways && CorePortFor(cfg, e.dpid, e.port).Some?
      requires e.dpid != cfg.maps.coreDpid ==> e.dpid in cfg.maps.leafUplinkPort
      modifies this`outbox
      ensures State() == RouterModel.InstallRouteFlows(cfg, old(State()), e, zone, out, mac)
    {
      if cfg.maps.coreDpid !in connections {
        return;
      }
      outbox := outbox + [CoreRule(cfg, e, zone, out, mac)];
      if e.dpid != cfg.maps.coreDpid {
        outbox := outbox + [LeafRule(cfg, e)];
      }
      assert outbox == old(outbox) + ([CoreRule(cfg, e, zone, out, mac)] + if e.dpid == cfg.maps.coreDpid then [] else [LeafRule(cfg, e)]);
    }

    /** The part of `_queue_and_resolve` for a destination nothing waits for yet. */
    method OpenEntry(ip: Addr, zone: ZoneName, u: Time)
      requires Valid() && zone in cfg.gateways
      modifies this
      ensures Valid() && State() == RouterModel.OpenEntry(cfg, old(State()), ip, zone, u)
    {
      var id := nextTimer;
      pending := pending[ip := Entry(zone, [], 1, id)];
      SendArpProbe(ip, zone, id);
      timers, nextTimer := timers[id := Timer(ip, u + ARP_RETRY_INTERVAL, u)], id + 1;
    }

    method QueueAndResolve(job: Job, zone: ZoneName, u: Time)
      requires Valid() && zone in cfg.gateways
      modifies this
      ensures Valid() && State() == RouterModel.QueueAndResolve(cfg, old(State()), job, zone, u)
    {
      var ip := job.ip.dst;
      if ip !in pending {
        OpenEntry(ip, zone, u);
      }
      pending := pending[ip := pending[ip].(queue := pending[ip].queue + [job])];
      queued := queued[ip := History(queued, ip) + [job]];
    }

    /** The loop at the end of `_retry_arp`. */
    method GiveUpOn(queue: seq<Job>, ip: Addr, ghost entry: TimerId)
      requires Valid()
      modifies this`outbox, this`released
      ensures State() == GiveUp(cfg, old(State()), queue, ip, entry)
    {
      for i := 0 to |queue|
        invariant Valid() && GiveUp(cfg, State(), queue[i..], ip, entry) == GiveUp(cfg, old(State()), queue, ip, entry)
      {
        assert queue[i..][0] == queue[i] && queue[i..][1..] == queue[i + 1..];
        SendIcmpError(queue[i], ICMP_DEST_UNREACH, ICMP_CODE_HOST_UNREACH);
        released := released[ip := History(released, ip) + [Release(queue[i], Unreachable, entry)]];
      }
    }

    /** `_retry_arp`, called when timer `id` fires. */
    method RetryArp(id: TimerId, now: Time)
      requires Valid() && id in timers
      modifies this
      ensures Valid() && State() == RouterModel.RetryArp(cfg, old(State()), id, now)
    {
      var ip := timers[id].ip;
      if ip in pending && pending[ip].retries >= ARP_MAX_RETRIES {
        var entry := pending[ip];
        timers := timers - {entry.timer};
        pending := pending - {ip};
        GiveUpOn(entry.queue, ip, entry.timer);
        return;
      }
      timers := timers[id := timers[id].(due := now + ARP_RETRY_INTERVAL)];
      if ip in pending {
        ProbeAgain(ip);
      }
    }

    method ProbeAgain(ip: Addr)
      requires Valid() && ip in pending
      modifies this
      ensures Valid() && State() == RouterModel.ProbeAgain(cfg, old(State()), ip)
    {
      var entry := pending[ip];
      SendArpProbe(ip, entry.zone, entry.timer);
      pending := pending[ip := entry.(retries := entry.retries + 1)];
    }

    /** The loop at the end of `_resolve_pending`. */
    method ForwardQueue(queue: seq<Job>, ip: Addr, ghost entry: TimerId, zone: ZoneName, out: Port, mac: Mac)
      requires Valid() && zone in cfg.gateways
      modifies this`outbox, this`released
      ensures State() == ForwardAll(cfg, old(State()), queue, ip, entry, zone, out, mac)
    {
      for i := 0 to |queue|
        invariant Valid() && ForwardAll(cfg, State(), queue[i..], ip, entry, zone, out, mac)
                             == ForwardAll(cfg, old(State()), queue, ip, entry, zone, out, mac)
      {
        ForwardIp(queue[i], zone, out, mac);
        released := released[ip := History(released, ip) + [Release(queue[i], Forwarded, entry)]];
        assert queue[i..][1..] == queue[i + 1..];
      }
    }

    method ResolvePending(ip: Addr, mac: Mac)
      requires Valid() && ip in ipToLoc
      modifies this
      ensures Valid() && State() == RouterModel.ResolvePending(cfg, old(State()), ip, mac)
    {
      if ip !in pending {
        return;
      }
      var entry := pending[ip];
      pending := pending - {ip};
      timers := timers - {entry.timer};
      ForwardQueue(entry.queue, ip, entry.timer, entry.zone, ipToLoc[ip].corePort, mac);
    }

    method Route(e: PacketIn, zone: ZoneName, u: Time)
      requires Valid() && e.frame.payload.Ip? && zone in cfg.gateways && ZoneOfPort(cfg, e.dpid, e.port).Some?
      modifies this
      ensures Valid() && State() == RouterModel.Route(cfg, old(State()), e, zone, u)
    {
      var ip := e.frame.payload.ip;
      var job := Job(e.dpid, e.port, e.frame.src, ip);
      if ip.dst in ipToLoc {
        var loc := ipToLoc[ip.dst];
        if ip.ttl > 1 {
          CorePortIsInTheZone(cfg, e.dpid, e.port);
          InstallRouteFlows(e, zone, loc.corePort, loc.mac);
        }
        ForwardIp(job, zone, loc.corePort, loc.mac);
      } else {
        QueueAndResolve(job, zone, u);
      }
    }

    // --- Packet-in handlers --------------------------------------------------------------------

    /** `is_allowed` on the daemon's connection; None stands for an OSError, when it cannot be reached. */
    method AskDaemon(src: Addr, dst: Addr, protocol: nat, reachable: bool) returns (answer: Option<bool>)
      ensures answer == if reachable then Some(cfg.daemon(src, dst, protocol)) else None
    {
      return if reachable then Some(cfg.daemon(src, dst, protocol)) else None;
    }

    /** `_firewall_allowed`: the daemon's answer if it is in use and can be reached, else Python's. */
    method FirewallAllowed(src: ZoneName, dst: ZoneName, ip: IpPacket, reachable: bool) returns (allowed: bool)
      ensures allowed == FirewallSays(cfg, if useDaemon && reachable then CppDaemon else PythonFallback, src, dst, ip)
    {
      var isIcmp := ip.proto == ConnTrack.IPPROTO_ICMP;
      if useDaemon {
        var answer := AskDaemon(ip.src, ip.dst, if isIcmp then ConnTrack.IPPROTO_ICMP else 0, reachable);
        if answer.Some? {
          return answer.value;
        }
      }
      return cfg.allowed(src, dst, isIcmp);
    }

    method HandleIp(e: PacketIn) returns (ghost c: Readings)
      requires Valid() && e.frame.payload.Ip?
      modifies this, conns, conns.clock
      ensures Valid() && old(conns.clock.now) <= c.t <= c.s <= c.u == conns.clock.now
      ensures State() == RouterModel.HandleIp(cfg, old(State()), e, c)
    {
      c := Readings(conns.clock.now, conns.clock.now, conns.clock.now, PythonFallback);
      var ip, src := e.frame.payload.ip, ZoneOfPort(cfg, e.dpid, e.port);
      if src.None? || !SourceValid(cfg, ip.src, src.value) {
        return;
      }
      Learn(e.dpid, e.port, ip.src, e.frame.src, src.value);
      var dst := cfg.zoneOf(ip.dst);
      if IsGateway(cfg, ip.dst) || dst.None? {
        return;
      }
      if dst.value == src.value {
        L2Forward(e);
        return;
      }
      c := HandleCrossZoneIp(e, src.value, dst.value);
    }

    method HandleCrossZoneIp(e: PacketIn, src: ZoneName, dst: ZoneName) returns (ghost c: Readings)
      requires Valid() && e.frame.payload.Ip? && ZoneOfPort(cfg, e.dpid, e.port) == Some(src) && dst in cfg.gateways
      modifies this, conns, conns.clock
      ensures Valid() && old(conns.clock.now) <= c.t <= c.s <= c.u == conns.clock.now
      ensures State() == RouterModel.HandleCrossZoneIp(cfg, old(State()), e, src, dst, c)
    {
      var ip := e.frame.payload.ip;
      var reachable: bool := *;
      var allowed := FirewallAllowed(src, dst, ip, reachable);
      var verdict, t := conns.Check(allowed, TrackedOf(ip));
      ghost var s := conns.clock.now;
      var end := conns.clock.Read();
      c := Readings(t, s, end, if useDaemon && reachable then CppDaemon else PythonFallback);
      log := log + [Check(ip, allowed, verdict, c.t, c.s, c.u)];
      assert State() == CheckConnection(cfg, old(State()), ip, allowed, c);
      if verdict == Drop {
        InstallDropFlow(e);
      } else {
        Route(e, dst, end);
      }
    }

    method HandleArp(e: PacketIn)
      requires Valid() && e.frame.payload.Arp?
      modifies this
      ensures Valid() && State() == RouterModel.HandleArp(cfg, old(State()), e)
    {
      var a, src := e.frame.payload, ZoneOfPort(cfg, e.dpid, e.port);
      if src.None? || !SourceValid(cfg, a.protosrc, src.value) {
        return;
      }
      CorePortIsInTheZone(cfg, e.dpid, e.port);
      Learn(e.dpid, e.port, a.protosrc, a.hwsrc, src.value);
      if a.opcode == ARP_REQUEST && IsGateway(cfg, a.protodst) {
        var reply := ArpReplyFrame(a.protodst, cfg.gateways[src.value].mac, a.protosrc, a.hwsrc);
        outbox := outbox + [PacketOut(e.dpid, reply, To(e.port))];
        return;
      }
      if a.opcode == ARP_REPLY && IsGateway(cfg, a.protodst) {
        ResolvePending(a.protosrc, a.hwsrc);
        return;
      }
      FloodInZone(e);
    }

    method HandlePacketIn(e: PacketIn) returns (ghost c: Readings)
      requires Valid()
      modifies this, conns, conns.clock
      ensures Valid() && old(conns.clock.now) <= c.t <= c.s <= c.u == conns.clock.now
      ensures State() == RouterModel.HandlePacketIn(cfg, old(State()), e, c)
    {
      c := Readings(conns.clock.now, conns.clock.now, conns.clock.now, PythonFallback);
      if !e.complete || e.frame.payload.Lldp? {
        return;
      }
      if IsLeafUplink(cfg, e.dpid, e.port) {
        HandleTransit(e);
      } else if e.frame.payload.Arp? {
        HandleArp(e);
      } else if e.frame.payload.Ip? {
        c := HandleIp(e);
      } else {
        FloodInZone(e);
      }
    }

    method HandleConnectionUp(dpid: Dpid)
      modifies this`connections, this`macTable
      ensures State() == RouterModel.HandleConnectionUp(old(State()), dpid)
    {
      connections := connections + {dpid};
      if dpid !in macTable {
        macTable := macTable[dpid := map[]];
      }
    }

    /** The recurring sweep timer. */
    method SweepConnections() returns (ghost readings: map<Flow, Time>)
      requires Valid()
      modifies this`log, conns, conns.clock
      ensures Valid() && old(conns.clock.now) <= conns.clock.now && readings.Keys == old(conns.lastSeen).Keys
      ensures State() == HandleSweep(old(State()), readings, old(conns.clock.now), conns.clock.now)
    {
      var removed;
      removed, readings := conns.Expire();
      log := log + [Sweep(readings, old(conns.clock.now), conns.clock.now)];
    }
  }

  /** The part of ZONE_CORE_PORTS built when the items in `todo` are still to come. */
  ghost predicate InverseBut(inverse: map<ZoneName, seq<Port>>, corePortZones: map<Port, ZoneName>, todo: set<(Port, ZoneName)>) {
    && (forall z, p :: z in inverse && p in inverse[z] <==> p in corePortZones && corePortZones[p] == z && (p, z) !in todo)
    && (forall z :: z in inverse ==>
          forall i, j :: 0 <= i < j < |inverse[z]| ==> inverse[z][i] != inverse[z][j])
  }

  /** ZONE_CORE_PORTS: the inverse of CORE_PORT_ZONES, built by going over its items in some order. */
  method BuildZoneCorePorts(corePortZones: map<Port, ZoneName>) returns (inverse: map<ZoneName, seq<Port>>)
    ensures InverseOf(inverse, corePortZones)
  {
    inverse := map[];
    var todo := corePortZones.Items;
    while todo != {}
      invariant todo <= corePortZones.Items && InverseBut(inverse, corePortZones, todo)
      decreases todo
    {
      var x :| x in todo;
      assert (x.0, x.1) == x;
      var ports := if x.1 in inverse then inverse[x.1] else [];
      inverse, todo := inverse[x.1 := ports + [x.0]], todo - {x};
    }
  }
}
