/** The connection sweep only frees memory: a run in which it never happens sends the same frames and
    keeps the same rules. */
module Sweeps {
  import opened Common
  import opened Ipv4
  import opened Policy
  import opened ConnTrack
  import opened ConnHistory
  import opened OpenFlow
  import opened RouterModel
  import opened RouterInv
  import opened RouterEffects
  import opened DataPlane
  import opened Floods

  function WaitInstead(s: DataPlane.Step): DataPlane.Step {
    if s.SweepRuns? then Wait(s.u) else s
  }

  /** The same steps, but time passes where a sweep ran. */
  function NoSweeps(steps: seq<DataPlane.Step>): seq<DataPlane.Step> {
    seq(|steps|, i requires 0 <= i < |steps| => WaitInstead(steps[i]))
  }

  function With(r: Router, conns: Table, log: seq<Obs>): Router {
    r.(conns := conns, log := log)
  }

  /** The same state, but for entries that are no longer alive and for the records. */
  ghost predicate Twins(r: Router, r': Router, now: Time) {
    r' == With(r, r'.conns, r'.log) && SameLive(r.conns, r'.conns, IDLE_TIMEOUT, now)
  }

  /** Two networks that differ in such entries only: same rules, same frames sent, same clock. */
  ghost predicate SameNet(n: Net, n': Net) {
    n' == n.(router := n'.router) && Twins(n.router, n'.router, n.now)
  }

  // --- Handlers do not read the table ----------------------------------------------------------

  lemma SendingCommutes(r: Router, msgs: seq<Msg>, conns: Table, log: seq<Obs>)
    ensures Send(With(r, conns, log), msgs) == With(Send(r, msgs), conns, log)
  {
  }

  lemma ErrorsCommute(cfg: Config, r: Router, job: Job, icmpType: nat, code: nat, conns: Table, log: seq<Obs>)
    requires ConfigOk(cfg)
    ensures SendIcmpError(cfg, With(r, conns, log), job, icmpType, code) == With(SendIcmpError(cfg, r, job, icmpType, code), conns, log)
  {
    var zone := ZoneOfPort(cfg, job.dpid, job.port);
    if zone.Some? {
      SendingCommutes(r, [PacketOut(job.dpid, IcmpErrorFrame(cfg.gateways[zone.value], job, icmpType, code), To(job.port))], conns, log);
    }
  }

  lemma ForwardIpCommutes(cfg: Config, r: Router, job: Job, zone: ZoneName, out: Port, mac: Mac, conns: Table, log: seq<Obs>)
    requires zone in cfg.gateways && ConfigOk(cfg)
    ensures ForwardIp(cfg, With(r, conns, log), job, zone, out, mac) == With(ForwardIp(cfg, r, job, zone, out, mac), conns, log)
  {
    if job.ip.ttl <= 1 {
      ErrorsCommute(cfg, r, job, ICMP_TIME_EXCEEDED, ICMP_CODE_TTL_EXCEEDED, conns, log);
    } else {
      SendingCommutes(r, [PacketOut(cfg.maps.coreDpid, Frame(cfg.gateways[zone].mac, mac, Ip(job.ip.(ttl := job.ip.ttl - 1))), To(out))], conns, log);
    }
  }

  function Released(r: Router, ip: Addr, release: Release): Router {
    r.(released := r.released[ip := History(r.released, ip) + [release]])
  }

  lemma ReleasingCommutes(r: Router, ip: Addr, release: Release, conns: Table, log: seq<Obs>)
    ensures Released(With(r, conns, log), ip, release) == With(Released(r, ip, release), conns, log)
  {
  }

  lemma {:induction false} ForwardAllCommutes(cfg: Config, r: Router, queue: seq<Job>, ip: Addr, entry: TimerId, zone: ZoneName, out: Port, mac: Mac,
                                              conns: Table, log: seq<Obs>)
    requires zone in cfg.gateways && ConfigOk(cfg)
    ensures ForwardAll(cfg, With(r, conns, log), queue, ip, entry, zone, out, mac) == With(ForwardAll(cfg, r, queue, ip, entry, zone, out, mac), conns, log)
    decreases queue
  {
    if queue != [] {
      var sent, release := ForwardIp(cfg, r, queue[0], zone, out, mac), Release(queue[0], Forwarded, entry);
      ForwardIpCommutes(cfg, r, queue[0], zone, out, mac, conns, log);
      ReleasingCommutes(sent, ip, release, conns, log);
      ForwardAllCommutes(cfg, Released(sent, ip, release), queue[1..], ip, entry, zone, out, mac, conns, log);
    }
  }

  lemma {:induction false} GiveUpCommutes(cfg: Config, r: Router, queue: seq<Job>, ip: Addr, entry: TimerId, conns: Table, log: seq<Obs>)
    requires ConfigOk(cfg)
    ensures GiveUp(cfg, With(r, conns, log), queue, ip, entry) == With(GiveUp(cfg, r, queue, ip, entry), conns, log)
    decreases queue
  {
    if queue != [] {
      var sent, release := SendIcmpError(cfg, r, queue[0], ICMP_DEST_UNREACH, ICMP_CODE_HOST_UNREACH), Release(queue[0], Unreachable, entry);
      ErrorsCommute(cfg, r, queue[0], ICMP_DEST_UNREACH, ICMP_CODE_HOST_UNREACH, conns, log);
      ReleasingCommutes(sent, ip, release, conns, log);
      GiveUpCommutes(cfg, Released(sent, ip, release), queue[1..], ip, entry, conns, log);
    }
  }

  lemma ResolvingCommutes(cfg: Config, r: Router, ip: Addr, mac: Mac, conns: Table, log: seq<Obs>)
    requires ConfigOk(cfg) && ip in r.ipToLoc && Consistent(cfg, r)
    ensures ResolvePending(cfg, With(r, conns, log), ip, mac) == With(ResolvePending(cfg, r, ip, mac), conns, log)
  {
    if ip in r.pending {
      var entry := r.pending[ip];
      ForwardAllCommutes(cfg, r.(timers := r.timers - {entry.timer}, pending := r.pending - {ip}), entry.queue, ip, entry.timer, entry.zone,
                         r.ipToLoc[ip].corePort, mac, conns, log);
    }
  }

  lemma ProbingCommutes(cfg: Config, r: Router, ip: Addr, zone: ZoneName, entry: TimerId, conns: Table, log: seq<Obs>)
    requires zone in cfg.gateways
    ensures SendArpProbe(cfg, With(r, conns, log), ip, zone, entry) == With(SendArpProbe(cfg, r, ip, zone, entry), conns, log)
  {
    var counted := r.(rounds := r.rounds + multiset{entry});
    SendingCommutes(counted, OutAll(cfg.maps.coreDpid, ProbeFrame(cfg.gateways[zone], ip), PortsOfZone(cfg, zone), None), conns, log);
    assert With(r, conns, log).(rounds := r.rounds + multiset{entry}) == With(counted, conns, log);
  }

  lemma ProbingAgainCommutes(cfg: Config, r: Router, ip: Addr, conns: Table, log: seq<Obs>)
    requires ip in r.pending && r.pending[ip].zone in cfg.gateways
    ensures ProbeAgain(cfg, With(r, conns, log), ip) == With(ProbeAgain(cfg, r, ip), conns, log)
  {
    ProbingCommutes(cfg, r, ip, r.pending[ip].zone, r.pending[ip].timer, conns, log);
  }

  lemma TickCommutes(cfg: Config, r: Router, id: TimerId, now: Time, conns: Table, log: seq<Obs>)
    requires ConfigOk(cfg) && id in r.timers && Consistent(cfg, r)
    ensures RetryArp(cfg, With(r, conns, log), id, now) == With(RetryArp(cfg, r, id, now), conns, log)
  {
    var ip := r.timers[id].ip;
    var again := r.(timers := r.timers[id := r.timers[id].(due := now + ARP_RETRY_INTERVAL)]);
    assert With(r, conns, log).(timers := again.timers) == With(again, conns, log);
    if ip in r.pending {
      var entry := r.pending[ip];
      GiveUpCommutes(cfg, r.(timers := r.timers - {entry.timer}, pending := r.pending - {ip}), entry.queue, ip, entry.timer, conns, log);
      ProbingAgainCommutes(cfg, again, ip, conns, log);
    }
  }

  lemma QueueingCommutes(cfg: Config, r: Router, job: Job, zone: ZoneName, u: Time, conns: Table, log: seq<Obs>)
    requires zone in cfg.gateways
    ensures QueueAndResolve(cfg, With(r, conns, log), job, zone, u) == With(QueueAndResolve(cfg, r, job, zone, u), conns, log)
  {
    var ip := job.ip.dst;
    if ip !in r.pending {
      ProbingCommutes(cfg, r, ip, zone, r.nextTimer, conns, log);
      assert OpenEntry(cfg, With(r, conns, log), ip, zone, u) == With(OpenEntry(cfg, r, ip, zone, u), conns, log);
      EnqueueingCommutes(OpenEntry(cfg, r, ip, zone, u), job, conns, log);
    } else {
      EnqueueingCommutes(r, job, conns, log);
    }
  }

  lemma EnqueueingCommutes(r: Router, job: Job, conns: Table, log: seq<Obs>)
    requires job.ip.dst in r.pending
    ensures Enqueue(With(r, conns, log), job) == With(Enqueue(r, job), conns, log)
  {
  }

  lemma InstallingCommutes(cfg: Config, r: Router, e: PacketIn, zone: ZoneName, out: Port, mac: Mac, conns: Table, log: seq<Obs>)
    requires zone in cfg.gateways && CorePortFor(cfg, e.dpid, e.port).Some?
    requires e.dpid != cfg.maps.coreDpid ==> e.dpid in cfg.maps.leafUplinkPort
    ensures InstallRouteFlows(cfg, With(r, conns, log), e, zone, out, mac) == With(InstallRouteFlows(cfg, r, e, zone, out, mac), conns, log)
  {
    if e.dpid == cfg.maps.coreDpid {
      SendingCommutes(r, [CoreRule(cfg, e, zone, out, mac)] + [], conns, log);
    } else {
      SendingCommutes(r, [CoreRule(cfg, e, zone, out, mac)] + [LeafRule(cfg, e)], conns, log);
    }
  }

  /** Toward a known host: the rules, unless the TTL expires, and the packet. */
  function RouteTo(cfg: Config, r: Router, e: PacketIn, job: Job, zone: ZoneName, loc: Location): Router
    requires ConfigOk(cfg) && zone in cfg.gateways && CorePortFor(cfg, e.dpid, e.port).Some?
    requires e.dpid != cfg.maps.coreDpid ==> e.dpid in cfg.maps.leafUplinkPort
  {
    ForwardIp(cfg, if job.ip.ttl > 1 then InstallRouteFlows(cfg, r, e, zone, loc.corePort, loc.mac) else r, job, zone, loc.corePort, loc.mac)
  }

  lemma KnownRouteCommutes(cfg: Config, r: Router, e: PacketIn, job: Job, zone: ZoneName, loc: Location, conns: Table, log: seq<Obs>)
    requires ConfigOk(cfg) && zone in cfg.gateways && CorePortFor(cfg, e.dpid, e.port).Some?
    requires e.dpid != cfg.maps.coreDpid ==> e.dpid in cfg.maps.leafUplinkPort
    ensures RouteTo(cfg, With(r, conns, log), e, job, zone, loc) == With(RouteTo(cfg, r, e, job, zone, loc), conns, log)
  {
    InstallingCommutes(cfg, r, e, zone, loc.corePort, loc.mac, conns, log);
    ForwardIpCommutes(cfg, if job.ip.ttl > 1 then InstallRouteFlows(cfg, r, e, zone, loc.corePort, loc.mac) else r, job, zone,
                      loc.corePort, loc.mac, conns, log);
  }

  lemma RoutingCommutes(cfg: Config, r: Router, e: PacketIn, zone: ZoneName, u: Time, conns: Table, log: seq<Obs>)
    requires ConfigOk(cfg) && e.frame.payload.Ip? && zone in cfg.gateways && ZoneOfPort(cfg, e.dpid, e.port).Some?
    ensures Route(cfg, With(r, conns, log), e, zone, u) == With(Route(cfg, r, e, zone, u), conns, log)
  {
    var ip := e.frame.payload.ip;
    var job := Job(e.dpid, e.port, e.frame.src, ip);
    CorePortIsInTheZone(cfg, e.dpid, e.port);
    if ip.dst in r.ipToLoc {
      RoutingToKnownCommutes(cfg, r, e, job, zone, u, conns, log);
    } else {
      QueueingCommutes(cfg, r, job, zone, u, conns, log);
    }
  }

  lemma RoutingToKnownCommutes(cfg: Config, r: Router, e: PacketIn, job: Job, zone: ZoneName, u: Time, conns: Table, log: seq<Obs>)
    requires ConfigOk(cfg) && e.frame.payload.Ip? && zone in cfg.gateways && ZoneOfPort(cfg, e.dpid, e.port).Some?
    requires job == Job(e.dpid, e.port, e.frame.src, e.frame.payload.ip) && job.ip.dst in r.ipToLoc
    ensures Route(cfg, With(r, conns, log), e, zone, u) == With(Route(cfg, r, e, zone, u), conns, log)
  {
    RouteIsKnown(cfg, r, e, job, zone, u);
    RouteIsKnown(cfg, With(r, conns, log), e, job, zone, u);
    KnownRouteCommutes(cfg, r, e, job, zone, r.ipToLoc[job.ip.dst], conns, log);
  }

  lemma RouteIsKnown(cfg: Config, r: Router, e: PacketIn, job: Job, zone: ZoneName, u: Time)
    requires ConfigOk(cfg) && e.frame.payload.Ip? && zone in cfg.gateways && ZoneOfPort(cfg, e.dpid, e.port).Some?
    requires job == Job(e.dpid, e.port, e.frame.src, e.frame.payload.ip) && job.ip.dst in r.ipToLoc
    ensures CorePortFor(cfg, e.dpid, e.port).Some? && (e.dpid != cfg.maps.coreDpid ==> e.dpid in cfg.maps.leafUplinkPort)
    ensures Route(cfg, r, e, zone, u) == RouteTo(cfg, r, e, job, zone, r.ipToLoc[job.ip.dst])
  {
    CorePortIsInTheZone(cfg, e.dpid, e.port);
  }

  lemma LearningCommutes(cfg: Config, r: Router, dpid: Dpid, port: Port, ip: Addr, mac: Mac, zone: ZoneName, conns: Table, log: seq<Obs>)
    ensures LearnMac(With(r, conns, log), dpid, mac, port) == With(LearnMac(r, dpid, mac, port), conns, log)
    ensures Learn(cfg, With(r, conns, log), dpid, port, ip, mac, zone) == With(Learn(cfg, r, dpid, port, ip, mac, zone), conns, log)
  {
  }

  lemma FloodingCommutes(cfg: Config, r: Router, e: PacketIn, conns: Table, log: seq<Obs>)
    ensures FloodInZone(cfg, With(r, conns, log), e) == With(FloodInZone(cfg, r, e), conns, log)
  {
    SendingCommutes(r, [PacketOut(e.dpid, e.frame, Flood)], conns, log);
    var zone := Get(cfg.maps.corePortZones, e.port);
    if zone.Some? {
      SendingCommutes(r, OutAll(e.dpid, e.frame, PortsOfZone(cfg, zone.value), Some(e.port)), conns, log);
    }
  }

  lemma ForwardingCommutes(cfg: Config, r: Router, e: PacketIn, conns: Table, log: seq<Obs>)
    ensures L2Forward(cfg, With(r, conns, log), e) == With(L2Forward(cfg, r, e), conns, log)
  {
    var out := if e.dpid in r.macTable then Get(r.macTable[e.dpid], e.frame.dst) else None;
    if out.None? {
      FloodingCommutes(cfg, r, e, conns, log);
    } else {
      SendingCommutes(r, [FlowMod(e.dpid, MatchOf(e.frame, e.port), L2_FLOW_IDLE_TIMEOUT, L2_FLOW_HARD_TIMEOUT, [Output(To(out.value))], Some(e.frame))], conns, log);
    }
  }

  lemma TransitCommutes(cfg: Config, r: Router, e: PacketIn, conns: Table, log: seq<Obs>)
    ensures HandleTransit(cfg, With(r, conns, log), e) == With(HandleTransit(cfg, r, e), conns, log)
  {
    var learned := LearnMac(r, e.dpid, e.frame.src, e.port);
    LearningCommutes(cfg, r, e.dpid, e.port, 0, e.frame.src, "", conns, log);
    FloodingCommutes(cfg, learned, e, conns, log);
    ForwardingCommutes(cfg, learned, e, conns, log);
  }

  lemma ArpCommutes(cfg: Config, r: Router, e: PacketIn, conns: Table, log: seq<Obs>)
    requires ConfigOk(cfg) && e.frame.payload.Arp? && Consistent(cfg, r)
    ensures HandleArp(cfg, With(r, conns, log), e) == With(HandleArp(cfg, r, e), conns, log)
  {
    var a, src := e.frame.payload, ZoneOfPort(cfg, e.dpid, e.port);
    if src.Some? && SourceValid(cfg, a.protosrc, src.value) {
      CorePortIsInTheZone(cfg, e.dpid, e.port);
      var learned := Learn(cfg, r, e.dpid, e.port, a.protosrc, a.hwsrc, src.value);
      LearningCommutes(cfg, r, e.dpid, e.port, a.protosrc, a.hwsrc, src.value, conns, log);
      HonestArpCommutes(cfg, learned, e, src.value, conns, log);
    }
  }

  lemma HonestArpCommutes(cfg: Config, r: Router, e: PacketIn, src: ZoneName, conns: Table, log: seq<Obs>)
    requires ConfigOk(cfg) && e.frame.payload.Arp? && src in cfg.gateways && e.frame.payload.protosrc in r.ipToLoc && Consistent(cfg, r)
    ensures HandleHonestArp(cfg, With(r, conns, log), e, src) == With(HandleHonestArp(cfg, r, e, src), conns, log)
  {
    var a := e.frame.payload;
    SendingCommutes(r, [PacketOut(e.dpid, ArpReplyFrame(a.protodst, cfg.gateways[src].mac, a.protosrc, a.hwsrc), To(e.port))], conns, log);
    FloodingCommutes(cfg, r, e, conns, log);
    ResolvingCommutes(cfg, r, a.protosrc, a.hwsrc, conns, log);
  }

  // --- The check -------------------------------------------------------------------------------

  lemma SameLiveLater(a: Table, b: Table, now: Time, later: Time)
    requires SameLive(a, b, IDLE_TIMEOUT, now) && now <= later
    ensures SameLive(a, b, IDLE_TIMEOUT, later)
  {
  }

  /** The two tables give the packet the same verdict and stay alike. */
  lemma ChecksAgree(cfg: Config, r: Router, r': Router, ip: IpPacket, allowed: bool, c: Readings, now: Time)
    requires Twins(r, r', now) && now <= c.t <= c.s <= c.u
    ensures var k, k' := CheckConnection(cfg, r, ip, allowed, c), CheckConnection(cfg, r', ip, allowed, c);
            Twins(k, k', c.u) && k.log[|k.log| - 1].verdict == k'.log[|k'.log| - 1].verdict
  {
    SameLiveLater(r.conns, r'.conns, now, c.t);
    CheckKeepsSameLive(r.conns, r'.conns, IDLE_TIMEOUT, Checked(allowed, TrackedOf(ip), c.t, c.s));
    SameLiveLater(AfterCheck(r.conns, IDLE_TIMEOUT, allowed, TrackedOf(ip), c.t, c.s), AfterCheck(r'.conns, IDLE_TIMEOUT, allowed, TrackedOf(ip), c.t, c.s),
                  c.s, c.u);
  }

  lemma TwinsAfter(r: Router, r': Router, k: Router, k': Router, now: Time, u: Time)
    requires Twins(r, r', now) && now <= u && k.conns == r.conns && k' == With(k, r'.conns, r'.log)
    ensures Twins(k, k', u)
  {
    SameLiveLater(r.conns, r'.conns, now, u);
  }

  lemma CrossZoneTwins(cfg: Config, r: Router, r': Router, e: PacketIn, src: ZoneName, dst: ZoneName, c: Readings, now: Time)
    requires ConfigOk(cfg) && e.frame.payload.Ip? && ZoneOfPort(cfg, e.dpid, e.port) == Some(src) && dst in cfg.gateways
    requires Twins(r, r', now) && now <= c.t <= c.s <= c.u && r.outbox == []
    ensures Twins(HandleCrossZoneIp(cfg, r, e, src, dst, c), HandleCrossZoneIp(cfg, r', e, src, dst, c), c.u)
  {
    var ip, allowed := e.frame.payload.ip, FirewallSays(cfg, c.backend, src, dst, e.frame.payload.ip);
    var k, k' := CheckConnection(cfg, r, ip, allowed, c), CheckConnection(cfg, r', ip, allowed, c);
    ChecksAgree(cfg, r, r', ip, allowed, c, now);
    if k.log[|k.log| - 1].verdict == Drop {
      RefusalTwins(k, k', e, c.u);
    } else {
      RouteTwins(cfg, k, k', e, dst, c.u);
    }
  }

  lemma RefusalTwins(r: Router, r': Router, e: PacketIn, u: Time)
    requires Twins(r, r', u)
    ensures Twins(InstallDropFlow(r, e), InstallDropFlow(r', e), u)
  {
    SendingCommutes(r, [FlowMod(e.dpid, MatchOf(e.frame, e.port), DROP_FLOW_IDLE_TIMEOUT, DROP_FLOW_HARD_TIMEOUT, [], None)], r'.conns, r'.log);
  }

  lemma RouteTwins(cfg: Config, r: Router, r': Router, e: PacketIn, dst: ZoneName, u: Time)
    requires ConfigOk(cfg) && e.frame.payload.Ip? && dst in cfg.gateways && ZoneOfPort(cfg, e.dpid, e.port).Some? && r.outbox == [] && Twins(r, r', u)
    ensures Twins(Route(cfg, r, e, dst, u), Route(cfg, r', e, dst, u), u)
  {
    RoutingCommutes(cfg, r, e, dst, u, r'.conns, r'.log);
    RouteEffects(cfg, r, Route(cfg, r, e, dst, u), e, dst, u);
  }

  lemma HonestIpTwins(cfg: Config, r: Router, r': Router, e: PacketIn, src: ZoneName, c: Readings, now: Time)
    requires ConfigOk(cfg) && e.frame.payload.Ip? && ZoneOfPort(cfg, e.dpid, e.port) == Some(src)
    requires Twins(r, r', now) && now <= c.t <= c.s <= c.u && r.outbox == []
    ensures Twins(HandleHonestIp(cfg, r, e, src, c), HandleHonestIp(cfg, r', e, src, c), c.u)
  {
    var ip := e.frame.payload.ip;
    var dst := cfg.zoneOf(ip.dst);
    if IsGateway(cfg, ip.dst) || dst.None? {
      TwinsAfter(r, r', r, r', now, c.u);
    } else if dst.value == src {
      ForwardingCommutes(cfg, r, e, r'.conns, r'.log);
      L2ForwardEffects(cfg, r, L2Forward(cfg, r, e), e);
      TwinsAfter(r, r', L2Forward(cfg, r, e), L2Forward(cfg, r', e), now, c.u);
    } else {
      CrossZoneTwins(cfg, r, r', e, src, dst.value, c, now);
    }
  }

  lemma IpTwins(cfg: Config, r: Router, r': Router, e: PacketIn, c: Readings, now: Time)
    requires ConfigOk(cfg) && e.frame.payload.Ip? && Twins(r, r', now) && now <= c.t <= c.s <= c.u && r.outbox == []
    ensures Twins(HandleIp(cfg, r, e, c), HandleIp(cfg, r', e, c), c.u)
  {
    var ip, src := e.frame.payload.ip, ZoneOfPort(cfg, e.dpid, e.port);
    if src.None? || !SourceValid(cfg, ip.src, src.value) {
      TwinsAfter(r, r', r, r', now, c.u);
    } else {
      LearningCommutes(cfg, r, e.dpid, e.port, ip.src, e.frame.src, src.value, r'.conns, r'.log);
      LearningChecksNothing(cfg, r, e, ip.src, e.frame.src, src.value);
      HonestIpTwins(cfg, Learn(cfg, r, e.dpid, e.port, ip.src, e.frame.src, src.value), Learn(cfg, r', e.dpid, e.port, ip.src, e.frame.src, src.value),
                    e, src.value, c, now);
    }
  }

  lemma PacketInTwins(cfg: Config, r: Router, r': Router, e: PacketIn, c: Readings, now: Time)
    requires ConfigOk(cfg) && Consistent(cfg, r) && Twins(r, r', now) && now <= c.t <= c.s <= c.u && r.outbox == []
    ensures Twins(HandlePacketIn(cfg, r, e, c), HandlePacketIn(cfg, r', e, c), c.u)
  {
    var k, k' := HandlePacketIn(cfg, r, e, c), HandlePacketIn(cfg, r', e, c);
    if e.complete && e.frame.payload.Ip? && !IsLeafUplink(cfg, e.dpid, e.port) {
      IpTwins(cfg, r, r', e, c, now);
    } else {
      TransitCommutes(cfg, r, e, r'.conns, r'.log);
      FloodingCommutes(cfg, r, e, r'.conns, r'.log);
      if e.frame.payload.Arp? {
        ArpCommutes(cfg, r, e, r'.conns, r'.log);
      }
      TableIsKept(cfg, r, e, c);
      TwinsAfter(r, r', k, k', now, c.u);
    }
  }

  /** Only IP packets from outside are checked. */
  lemma TableIsKept(cfg: Config, r: Router, e: PacketIn, c: Readings)
    requires ConfigOk(cfg) && Consistent(cfg, r) && r.outbox == [] && !(e.complete && e.frame.payload.Ip? && !IsLeafUplink(cfg, e.dpid, e.port))
    ensures HandlePacketIn(cfg, r, e, c).conns == r.conns
  {
    PacketInEffects(cfg, r, HandlePacketIn(cfg, r, e, c), e, c);
    if e.complete && IsLeafUplink(cfg, e.dpid, e.port) {
      var learned := LearnMac(r, e.dpid, e.frame.src, e.port);
      L2ForwardEffects(cfg, learned, L2Forward(cfg, learned, e), e);
      FloodSends(cfg, learned, FloodInZone(cfg, learned, e), e);
    }
  }

  // --- Runs ------------------------------------------------------------------------------------

  lemma {:induction false} ObeyingTwins(cfg: Config, n: Net, n': Net, msgs: seq<Msg>)
    requires SameNet(n, n')
    ensures SameNet(ObeyAll(cfg, n, msgs), ObeyAll(cfg, n', msgs))
    decreases msgs
  {
    if msgs != [] {
      ObeyTwins(cfg, n, n', msgs[0]);
      ObeyingTwins(cfg, Obey(cfg, n, msgs[0]), Obey(cfg, n', msgs[0]), msgs[1..]);
    }
  }

  lemma ObeyTwins(cfg: Config, n: Net, n': Net, m: Msg)
    requires SameNet(n, n')
    ensures SameNet(Obey(cfg, n, m), Obey(cfg, n', m))
  {
    if m.FlowMod? && m.data.Some? {
      var rule := Rule(m.actions, m.idle, m.hard, n.now, n.now);
      EmittingTwins(cfg, Install(n, m.dpid, m.m, rule), Install(n', m.dpid, m.m, rule), m.dpid, Execute(m.actions, m.data.value), false);
    }
  }

  lemma {:induction false} EmittingTwins(cfg: Config, n: Net, n': Net, dpid: Dpid, outs: seq<(OutPort, Frame)>, byRule: bool)
    requires SameNet(n, n')
    ensures SameNet(EmitAll(cfg, n, dpid, outs, byRule), EmitAll(cfg, n', dpid, outs, byRule))
    decreases outs
  {
    if outs != [] {
      EmittingTwins(cfg, Emit(cfg, n, dpid, outs[0].0, outs[0].1, byRule), Emit(cfg, n', dpid, outs[0].0, outs[0].1, byRule), dpid, outs[1..], byRule);
    }
  }

  lemma DeliveryTwins(cfg: Config, n: Net, n': Net, r: Router, r': Router, u: Time)
    requires SameNet(n, n') && Twins(r, r', u)
    ensures SameNet(Deliver(cfg, n, r, u), Deliver(cfg, n', r', u))
  {
    var quiet, quiet' := r.(outbox := []), r'.(outbox := []);
    assert quiet' == With(quiet, r'.conns, r'.log);
    ObeyingTwins(cfg, n.(router := quiet, now := u), n'.(router := quiet', now := u), r.outbox);
  }

  lemma ArrivalTwins(cfg: Config, n: Net, n': Net, s: DataPlane.Step, late: Time)
    requires ConfigOk(cfg) && Consistent(cfg, n.router) && Enabled(cfg, n, s, late) && SameNet(n, n') && n.router.outbox == []
    requires s.Arrive? && s.via.None?
    ensures Consistent(cfg, n'.router) && SameNet(Apply(cfg, n, s), Apply(cfg, n', s))
  {
    var e := EventOfStep(s);
    PacketInTwins(cfg, n.router, n'.router, e, s.c, n.now);
    DeliveryTwins(cfg, n, n', HandlePacketIn(cfg, n.router, e, s.c), HandlePacketIn(cfg, n'.router, e, s.c), s.c.u);
  }

  lemma RuleTwins(cfg: Config, n: Net, n': Net, s: DataPlane.Step)
    requires ConfigOk(cfg) && Consistent(cfg, n.router) && SameNet(n, n')
    requires s.Arrive? && s.via.Some? && s.via.value in TableOf(n, s.dpid)
    ensures Consistent(cfg, n'.router) && SameNet(Apply(cfg, n, s), Apply(cfg, n', s))
  {
    var rule := TableOf(n, s.dpid)[s.via.value];
    EmittingTwins(cfg, Install(n, s.dpid, s.via.value, rule.(lastHit := n.now)), Install(n', s.dpid, s.via.value, rule.(lastHit := n.now)),
                  s.dpid, Execute(rule.actions, s.frame), true);
  }

  lemma TickTwins(cfg: Config, n: Net, n': Net, id: TimerId)
    requires ConfigOk(cfg) && Consistent(cfg, n.router) && SameNet(n, n') && id in n.router.timers && n.router.outbox == []
    ensures Consistent(cfg, n'.router) && SameNet(Apply(cfg, n, TimerFires(id)), Apply(cfg, n', TimerFires(id)))
  {
    TickCommutes(cfg, n.router, id, n.now, n'.router.conns, n'.router.log);
    TickSends(cfg, n.router, RetryArp(cfg, n.router, id, n.now), id, n.now);
    DeliveryTwins(cfg, n, n', RetryArp(cfg, n.router, id, n.now), RetryArp(cfg, n'.router, id, n.now), n.now);
  }

  lemma SweepTwins(cfg: Config, n: Net, n': Net, readings: map<Flow, Time>, u: Time)
    requires SameNet(n, n') && n.now <= u && forall f :: f in readings ==> n.now <= readings[f] <= u
    ensures SameNet(n.(router := HandleSweep(n.router, readings, n.now, u), now := u), n'.(now := u))
  {
    SweepKeepsSameLive(n.router.conns, n'.router.conns, IDLE_TIMEOUT, Swept(readings, n.now, u));
  }

  lemma TwinsCanDoTheSame(cfg: Config, n: Net, n': Net, s: DataPlane.Step, late: Time)
    requires Enabled(cfg, n, s, late) && SameNet(n, n')
    ensures Enabled(cfg, n', WaitInstead(s), late)
  {
    if s.Arrive? {
      assert forall m :: Hits(n, s.dpid, m, s.frame, s.port) <==> Hits(n', s.dpid, m, s.frame, s.port);
    }
  }

  /** What one network can do, its twin can, and they stay twins; where the one sweeps, the other waits. */
  lemma StepTwins(cfg: Config, n: Net, n': Net, s: DataPlane.Step, late: Time)
    requires ConfigOk(cfg) && Consistent(cfg, n.router) && Enabled(cfg, n, s, late) && SameNet(n, n') && n.router.outbox == []
    ensures Consistent(cfg, n'.router) && Enabled(cfg, n', WaitInstead(s), late)
    ensures SameNet(Apply(cfg, n, s), Apply(cfg, n', WaitInstead(s)))
  {
    TwinsCanDoTheSame(cfg, n, n', s, late);
    match s {
      case ConnectionUp(_) =>
      case Arrive(_, _, _, _, via, _) =>
        if via.None? {
          ArrivalTwins(cfg, n, n', s, late);
        } else {
          RuleTwins(cfg, n, n', s);
        }
      case TimerFires(id) => TickTwins(cfg, n, n', id);
      case SweepRuns(readings, u) => SweepTwins(cfg, n, n', readings, u);
      case Wait(t) => SameLiveLater(n.router.conns, n'.router.conns, n.now, t);
    }
  }

  ghost predicate RunsAlike(cfg: Config, steps: seq<DataPlane.Step>, nets: seq<Net>, nets': seq<Net>, late: Time, k: nat)
    requires ConfigOk(cfg) && k <= |steps| && |nets| == |steps| + 1
  {
    && |nets'| == k + 1 && nets'[0] == START
    && (forall i :: 0 <= i < k ==> Follows(cfg, nets'[i], WaitInstead(steps[i]), nets'[i + 1], late))
    && (forall i :: 0 <= i <= k ==> SameNet(nets[i], nets'[i]))
  }

  lemma {:induction false} AlikeUpTo(cfg: Config, steps: seq<DataPlane.Step>, nets: seq<Net>, late: Time, k: nat) returns (nets': seq<Net>)
    requires ConfigOk(cfg) && DaemonAgrees(cfg) && 0.0 <= late && IsRun(cfg, steps, nets, late) && k <= |steps|
    ensures RunsAlike(cfg, steps, nets, nets', late, k)
  {
    if k == 0 {
      nets' := [START];
    } else {
      var before := AlikeUpTo(cfg, steps, nets, late, k - 1);
      RunStepTwins(cfg, steps, nets, late, k - 1, before[k - 1]);
      nets' := before + [Apply(cfg, before[k - 1], WaitInstead(steps[k - 1]))];
      OneMoreAlike(cfg, steps, nets, before, nets'[k], late, k);
    }
  }

  lemma RunStepTwins(cfg: Config, steps: seq<DataPlane.Step>, nets: seq<Net>, late: Time, k: nat, n': Net)
    requires ConfigOk(cfg) && DaemonAgrees(cfg) && 0.0 <= late && IsRun(cfg, steps, nets, late) && k < |steps| && SameNet(nets[k], n')
    ensures Consistent(cfg, n'.router) && Enabled(cfg, n', WaitInstead(steps[k]), late)
    ensures SameNet(nets[k + 1], Apply(cfg, n', WaitInstead(steps[k])))
  {
    StepOfRun(cfg, steps, nets, late, k);
    StepTwins(cfg, nets[k], n', steps[k], late);
  }

  lemma OneMoreAlike(cfg: Config, steps: seq<DataPlane.Step>, nets: seq<Net>, before: seq<Net>, next: Net, late: Time, k: nat)
    requires ConfigOk(cfg) && 0 < k <= |steps| && |nets| == |steps| + 1 && RunsAlike(cfg, steps, nets, before, late, k - 1)
    requires Follows(cfg, before[k - 1], WaitInstead(steps[k - 1]), next, late) && SameNet(nets[k], next)
    ensures RunsAlike(cfg, steps, nets, before + [next], late, k)
  {
  }

  /** For every run there is one through the same rules and the same sent frames, at the same times, in
      which no sweep ever happens. */
  lemma SweepsChangeNothing(cfg: Config, steps: seq<DataPlane.Step>, nets: seq<Net>, late: Time) returns (nets': seq<Net>)
    requires ConfigOk(cfg) && DaemonAgrees(cfg) && 0.0 <= late && IsRun(cfg, steps, nets, late)
    ensures IsRun(cfg, NoSweeps(steps), nets', late)
    ensures forall i :: 0 <= i < |nets| ==> SameNet(nets[i], nets'[i])
  {
    nets' := AlikeUpTo(cfg, steps, nets, late, |steps|);
  }

  /** Yet a sweep does what it is there for: in every run it removes exactly the entries that were idle for
      120 seconds when the clock was read for them, and leaves all others as they were. */
  lemma SweepsFreeIdleEntries(cfg: Config, steps: seq<DataPlane.Step>, nets: seq<Net>, late: Time, k: nat, flow: Flow)
    requires ConfigOk(cfg) && DaemonAgrees(cfg) && 0.0 <= late && IsRun(cfg, steps, nets, late) && k < |steps| && steps[k].SweepRuns?
    requires flow in nets[k].router.conns
    ensures flow in steps[k].readings
    ensures flow in nets[k + 1].router.conns <==> steps[k].readings[flow] - nets[k].router.conns[flow] < 120.0
    ensures flow in nets[k + 1].router.conns ==> nets[k + 1].router.conns[flow] == nets[k].router.conns[flow]
    ensures nets[k + 1].router.conns.Keys <= nets[k].router.conns.Keys
  {
    StepOfRun(cfg, steps, nets, late, k);
  }
}
