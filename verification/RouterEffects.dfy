/** What a handler can do to the firewall's records and to the switches' rules: at most one check, of
    the packet at hand, and rules only for the match of the packet at hand. */
module RouterEffects {
  import opened Common
  import opened Ipv4
  import opened Policy
  import opened ConnTrack
  import opened OpenFlow
  import opened RouterModel
  import opened RouterSteps

  /** The tables of MACs and locations are the same. */
  predicate SameTables(r: Router, r': Router) {
    r'.macTable == r.macTable && r'.ipToLoc == r.ipToLoc
  }

  /** From `r` to `r'` the handler has sent nothing but packets, made no check and learned nothing. */
  ghost predicate OnlySends(r: Router, r': Router) {
    r'.log == r.log && r'.conns == r.conns && SameTables(r, r') && exists sent :: r'.outbox == r.outbox + sent && PacketsOnly(sent)
  }

  ghost predicate PacketsOnly(msgs: seq<Msg>) {
    forall i :: 0 <= i < |msgs| ==> msgs[i].PacketOut?
  }

  lemma SendsOnly(r: Router, r': Router, sent: seq<Msg>)
    requires r'.log == r.log && r'.conns == r.conns && SameTables(r, r') && r'.outbox == r.outbox + sent && PacketsOnly(sent)
    ensures OnlySends(r, r')
  {
  }

  lemma SendsMore(r: Router, r1: Router, r2: Router)
    requires OnlySends(r, r1) && OnlySends(r1, r2)
    ensures OnlySends(r, r2)
  {
    var a :| r1.outbox == r.outbox + a && PacketsOnly(a);
    var b :| r2.outbox == r1.outbox + b && PacketsOnly(b);
    assert r2.outbox == r.outbox + (a + b);
    SendsOnly(r, r2, a + b);
  }

  lemma OutAllIsPackets(dpid: Dpid, f: Frame, ports: seq<Port>, except: Option<Port>, msgs: seq<Msg>)
    requires msgs == OutAll(dpid, f, ports, except)
    ensures PacketsOnly(msgs)
  {
    OutAllSends(dpid, f, ports, except);
  }

  lemma SendingSendsOnly(r: Router, msgs: seq<Msg>)
    requires PacketsOnly(msgs)
    ensures OnlySends(r, Send(r, msgs))
  {
  }

  lemma DoingNothingSendsOnly(r: Router)
    ensures OnlySends(r, r)
  {
    assert r.outbox == r.outbox + [];
    SendsOnly(r, r, []);
  }

  /** What a flood sends: the frame to the other core ports of the zone, or one flood by the leaf. */
  function FloodMsgs(cfg: Config, e: PacketIn): seq<Msg> {
    if e.dpid != cfg.maps.coreDpid then [PacketOut(e.dpid, e.frame, Flood)]
    else if e.port in cfg.maps.corePortZones then OutAll(e.dpid, e.frame, PortsOfZone(cfg, cfg.maps.corePortZones[e.port]), Some(e.port))
    else []
  }

  lemma FloodingSends(cfg: Config, r: Router, e: PacketIn)
    ensures FloodInZone(cfg, r, e) == Send(r, FloodMsgs(cfg, e))
  {
  }

  lemma FloodSends(cfg: Config, r: Router, r': Router, e: PacketIn)
    requires r' == FloodInZone(cfg, r, e)
    ensures OnlySends(r, r')
  {
    var zone := Get(cfg.maps.corePortZones, e.port);
    if e.dpid != cfg.maps.coreDpid {
      SendingSendsOnly(r, [PacketOut(e.dpid, e.frame, Flood)]);
    } else if zone.None? {
      DoingNothingSendsOnly(r);
    } else {
      var msgs := OutAll(e.dpid, e.frame, PortsOfZone(cfg, zone.value), Some(e.port));
      OutAllIsPackets(e.dpid, e.frame, PortsOfZone(cfg, zone.value), Some(e.port), msgs);
      SendingSendsOnly(r, msgs);
    }
  }

  lemma ProbeSends(cfg: Config, r: Router, r': Router, ip: Addr, zone: ZoneName, entry: TimerId)
    requires zone in cfg.gateways && r' == SendArpProbe(cfg, r, ip, zone, entry)
    ensures OnlySends(r, r')
  {
    if cfg.maps.coreDpid in r.connections {
      var f, ports := ProbeFrame(cfg.gateways[zone], ip), PortsOfZone(cfg, zone);
      var msgs := OutAll(cfg.maps.coreDpid, f, ports, None);
      OutAllIsPackets(cfg.maps.coreDpid, f, ports, None, msgs);
      SendsOnly(r, r', msgs);
    } else {
      DoingNothingSendsOnly(r);
    }
  }

  lemma IcmpErrorSends(cfg: Config, r: Router, r': Router, job: Job, icmpType: nat, code: nat)
    requires ConfigOk(cfg) && r' == SendIcmpError(cfg, r, job, icmpType, code)
    ensures OnlySends(r, r')
  {
    if r' == r {
      DoingNothingSendsOnly(r);
    } else {
      SendsOnly(r, r', [r'.outbox[|r.outbox|]]);
    }
  }

  lemma ForwardSends(cfg: Config, r: Router, r': Router, job: Job, zone: ZoneName, out: Port, mac: Mac)
    requires ConfigOk(cfg) && zone in cfg.gateways && r' == ForwardIp(cfg, r, job, zone, out, mac)
    ensures OnlySends(r, r')
  {
    if job.ip.ttl <= 1 {
      IcmpErrorSends(cfg, r, r', job, ICMP_TIME_EXCEEDED, ICMP_CODE_TTL_EXCEEDED);
    } else if cfg.maps.coreDpid !in r.connections {
      DoingNothingSendsOnly(r);
    } else {
      SendingSendsOnly(r, [PacketOut(cfg.maps.coreDpid, Frame(cfg.gateways[zone].mac, mac, Ip(job.ip.(ttl := job.ip.ttl - 1))), To(out))]);
    }
  }

  lemma {:induction false} ForwardAllSends(cfg: Config, r: Router, queue: seq<Job>, ip: Addr, entry: TimerId, zone: ZoneName, out: Port, mac: Mac)
    requires ConfigOk(cfg) && zone in cfg.gateways
    ensures OnlySends(r, ForwardAll(cfg, r, queue, ip, entry, zone, out, mac))
    decreases queue
  {
    if queue == [] {
      DoingNothingSendsOnly(r);
    } else {
      var sent := ForwardIp(cfg, r, queue[0], zone, out, mac);
      ForwardSends(cfg, r, sent, queue[0], zone, out, mac);
      var next := sent.(released := sent.released[ip := History(sent.released, ip) + [Release(queue[0], Forwarded, entry)]]);
      ForwardAllSends(cfg, next, queue[1..], ip, entry, zone, out, mac);
      SendsMore(r, next, ForwardAll(cfg, next, queue[1..], ip, entry, zone, out, mac));
    }
  }

  lemma {:induction false} GiveUpSends(cfg: Config, r: Router, queue: seq<Job>, ip: Addr, entry: TimerId)
    requires ConfigOk(cfg)
    ensures OnlySends(r, GiveUp(cfg, r, queue, ip, entry))
    decreases queue
  {
    if queue == [] {
      DoingNothingSendsOnly(r);
    } else {
      var sent := SendIcmpError(cfg, r, queue[0], ICMP_DEST_UNREACH, ICMP_CODE_HOST_UNREACH);
      IcmpErrorSends(cfg, r, sent, queue[0], ICMP_DEST_UNREACH, ICMP_CODE_HOST_UNREACH);
      var next := sent.(released := sent.released[ip := History(sent.released, ip) + [Release(queue[0], Unreachable, entry)]]);
      GiveUpSends(cfg, next, queue[1..], ip, entry);
      SendsMore(r, next, GiveUp(cfg, next, queue[1..], ip, entry));
    }
  }

  lemma TickSends(cfg: Config, r: Router, r': Router, id: TimerId, now: Time)
    requires ConfigOk(cfg) && id in r.timers && (forall ip :: ip in r.pending ==> r.pending[ip].zone in cfg.gateways)
    requires r' == RetryArp(cfg, r, id, now)
    ensures OnlySends(r, r')
  {
    var ip := r.timers[id].ip;
    var again := r.(timers := r.timers[id := r.timers[id].(due := now + ARP_RETRY_INTERVAL)]);
    if ip !in r.pending {
      DoingNothingSendsOnly(r);
    } else if r.pending[ip].retries >= ARP_MAX_RETRIES {
      var entry := r.pending[ip];
      GiveUpSends(cfg, r.(timers := r.timers - {entry.timer}, pending := r.pending - {ip}), entry.queue, ip, entry.timer);
    } else {
      var entry := r.pending[ip];
      ProbeSends(cfg, again, SendArpProbe(cfg, again, ip, entry.zone, entry.timer), ip, entry.zone, entry.timer);
    }
  }

  lemma ResolveSends(cfg: Config, r: Router, r': Router, ip: Addr, mac: Mac)
    requires ConfigOk(cfg) && ip in r.ipToLoc && (forall ip :: ip in r.pending ==> r.pending[ip].zone in cfg.gateways)
    requires r' == ResolvePending(cfg, r, ip, mac)
    ensures OnlySends(r, r')
  {
    if ip !in r.pending {
      DoingNothingSendsOnly(r);
    } else {
      var entry := r.pending[ip];
      ForwardAllSends(cfg, r.(timers := r.timers - {entry.timer}, pending := r.pending - {ip}),
                      entry.queue, ip, entry.timer, entry.zone, r.ipToLoc[ip].corePort, mac);
    }
  }

  lemma QueueSends(cfg: Config, r: Router, r': Router, job: Job, zone: ZoneName, u: Time)
    requires zone in cfg.gateways && r' == QueueAndResolve(cfg, r, job, zone, u)
    ensures OnlySends(r, r')
  {
    if job.ip.dst in r.pending {
      DoingNothingSendsOnly(r);
    } else {
      ProbeSends(cfg, r, SendArpProbe(cfg, r, job.ip.dst, zone, r.nextTimer), job.ip.dst, zone, r.nextTimer);
    }
  }

  lemma HonestArpSends(cfg: Config, r: Router, r': Router, e: PacketIn, src: ZoneName)
    requires ConfigOk(cfg) && e.frame.payload.Arp? && src in cfg.gateways && e.frame.payload.protosrc in r.ipToLoc
    requires forall ip :: ip in r.pending ==> r.pending[ip].zone in cfg.gateways
    requires r' == HandleHonestArp(cfg, r, e, src)
    ensures OnlySends(r, r')
  {
    var a := e.frame.payload;
    if a.opcode == ARP_REQUEST && IsGateway(cfg, a.protodst) {
      SendsOnly(r, r', [r'.outbox[|r.outbox|]]);
    } else if a.opcode == ARP_REPLY && IsGateway(cfg, a.protodst) {
      ResolveSends(cfg, r, r', a.protosrc, a.hwsrc);
    } else {
      FloodSends(cfg, r, r', e);
    }
  }

  // --- Rules -----------------------------------------------------------------------------------

  /** Handling this packet-in may put a rule with match `m` on switch `dpid`. */
  predicate MayInstall(cfg: Config, e: PacketIn, dpid: Dpid, m: Match) {
    var own := MatchOf(e.frame, e.port);
    || (e.dpid == dpid && own == m)
    || (dpid == cfg.maps.coreDpid && CorePortFor(cfg, e.dpid, e.port).Some?
        && own.(inPort := CorePortFor(cfg, e.dpid, e.port).value) == m)
  }

  /** Every rule among the messages is one the packet-in may install. */
  ghost predicate RulesOf(cfg: Config, e: PacketIn, msgs: seq<Msg>) {
    forall i :: 0 <= i < |msgs| && msgs[i].FlowMod? ==> MayInstall(cfg, e, msgs[i].dpid, msgs[i].m)
  }

  /** The records of the firewall grew by at most this packet's check. */
  ghost predicate OneCheck(r: Router, r': Router, e: PacketIn, c: Readings) {
    || (r'.log == r.log && r'.conns == r.conns)
    || (e.frame.payload.Ip? && |r'.log| == |r.log| + 1 && r'.log[..|r.log|] == r.log
        && var o := r'.log[|r.log|]; o.Check? && o.ip == e.frame.payload.ip && o.t == c.t && o.s == c.s && o.u == c.u)
  }

  lemma L2ForwardEffects(cfg: Config, r: Router, r': Router, e: PacketIn)
    requires r.outbox == [] && r' == L2Forward(cfg, r, e)
    ensures RulesOf(cfg, e, r'.outbox) && r'.log == r.log && r'.conns == r.conns && SameTables(r, r')
  {
    var out := if e.dpid in r.macTable then Get(r.macTable[e.dpid], e.frame.dst) else None;
    if out.None? {
      FloodSends(cfg, r, r', e);
    }
  }

  lemma RouteEffects(cfg: Config, r: Router, r': Router, e: PacketIn, zone: ZoneName, u: Time)
    requires ConfigOk(cfg) && e.frame.payload.Ip? && zone in cfg.gateways && ZoneOfPort(cfg, e.dpid, e.port).Some?
    requires r.outbox == [] && r' == Route(cfg, r, e, zone, u)
    ensures RulesOf(cfg, e, r'.outbox) && r'.log == r.log && r'.conns == r.conns && SameTables(r, r')
  {
    var ip := e.frame.payload.ip;
    var job := Job(e.dpid, e.port, e.frame.src, ip);
    CorePortIsInTheZone(cfg, e.dpid, e.port);
    if ip.dst in r.ipToLoc {
      var loc := r.ipToLoc[ip.dst];
      var r1 := if ip.ttl > 1 then InstallRouteFlows(cfg, r, e, zone, loc.corePort, loc.mac) else r;
      InstallEffects(cfg, r, r1, e, zone, loc);
      ForwardSends(cfg, r1, r', job, zone, loc.corePort, loc.mac);
    } else {
      QueueSends(cfg, r, r', job, zone, u);
    }
  }

  lemma InstallEffects(cfg: Config, r: Router, r1: Router, e: PacketIn, zone: ZoneName, loc: Location)
    requires zone in cfg.gateways && CorePortFor(cfg, e.dpid, e.port).Some? && r.outbox == []
    requires e.dpid != cfg.maps.coreDpid ==> e.dpid in cfg.maps.leafUplinkPort
    requires r1 == r || r1 == InstallRouteFlows(cfg, r, e, zone, loc.corePort, loc.mac)
    ensures RulesOf(cfg, e, r1.outbox) && r1.log == r.log && r1.conns == r.conns && SameTables(r, r1)
  {
  }

  lemma CrossZoneEffects(cfg: Config, r: Router, r': Router, e: PacketIn, src: ZoneName, dst: ZoneName, c: Readings)
    requires ConfigOk(cfg) && e.frame.payload.Ip? && ZoneOfPort(cfg, e.dpid, e.port) == Some(src) && dst in cfg.gateways
    requires r.outbox == [] && r' == HandleCrossZoneIp(cfg, r, e, src, dst, c)
    ensures RulesOf(cfg, e, r'.outbox) && OneCheck(r, r', e, c) && SameTables(r, r')
  {
    var ip := e.frame.payload.ip;
    var checked := CheckConnection(cfg, r, ip, FirewallSays(cfg, c.backend, src, dst, ip), c);
    if checked.log[|checked.log| - 1].verdict == Drop {
      RefusalEffects(cfg, checked, e);
    } else {
      RouteEffects(cfg, checked, r', e, dst, c.u);
    }
  }

  lemma RefusalEffects(cfg: Config, r: Router, e: PacketIn)
    requires r.outbox == []
    ensures var r' := InstallDropFlow(r, e);
            RulesOf(cfg, e, r'.outbox) && r'.log == r.log && r'.conns == r.conns && SameTables(r, r')
  {
  }

  lemma HonestIpEffects(cfg: Config, r: Router, r': Router, e: PacketIn, src: ZoneName, c: Readings)
    requires ConfigOk(cfg) && e.frame.payload.Ip? && ZoneOfPort(cfg, e.dpid, e.port) == Some(src)
    requires r.outbox == [] && r' == HandleHonestIp(cfg, r, e, src, c)
    ensures RulesOf(cfg, e, r'.outbox) && OneCheck(r, r', e, c) && SameTables(r, r')
  {
    var dst := cfg.zoneOf(e.frame.payload.ip.dst);
    if r' != r && dst.Some? {
      if dst.value == src {
        L2ForwardEffects(cfg, r, r', e);
      } else {
        CrossZoneEffects(cfg, r, r', e, src, dst.value, c);
      }
    }
  }

  // --- Learning --------------------------------------------------------------------------------

  /** What a packet-in teaches: the MAC address of its port, and from an honest host, the address's
      location as seen from the core. Frames from an uplink teach only the former. */
  datatype Lesson = Lesson(mac: Mac, place: Option<(Addr, Location)>)

  function LessonOf(cfg: Config, e: PacketIn): Option<Lesson> {
    if !e.complete || e.frame.payload.Lldp? then None
    else if IsLeafUplink(cfg, e.dpid, e.port) then Some(Lesson(e.frame.src, None))
    else match e.frame.payload
      case Arp(_, hwsrc, protosrc, _, _) => HonestLesson(cfg, e, protosrc, hwsrc)
      case Ip(ip) => HonestLesson(cfg, e, ip.src, e.frame.src)
      case _ => None
  }

  function HonestLesson(cfg: Config, e: PacketIn, ip: Addr, mac: Mac): Option<Lesson> {
    var zone, corePort := ZoneOfPort(cfg, e.dpid, e.port), CorePortFor(cfg, e.dpid, e.port);
    if zone.Some? && SourceValid(cfg, ip, zone.value)
    then Some(Lesson(mac, if corePort.Some? then Some((ip, Location(corePort.value, mac, zone.value))) else None))
    else None
  }

  /** Where the switch would send a frame for the MAC address. */
  function PortSeen(r: Router, dpid: Dpid, mac: Mac): Option<Port> {
    if dpid in r.macTable then Get(r.macTable[dpid], mac) else None
  }

  /** The tables hold one lesson more. */
  ghost predicate Taught(r: Router, r': Router, e: PacketIn, lesson: Option<Lesson>) {
    MacTaught(r, r', e, lesson) && PlaceTaught(r, r', lesson)
  }

  ghost predicate MacTaught(r: Router, r': Router, e: PacketIn, lesson: Option<Lesson>) {
    forall d, m :: PortSeen(r', d, m) == if lesson.Some? && d == e.dpid && m == lesson.value.mac then Some(e.port) else PortSeen(r, d, m)
  }

  ghost predicate PlaceTaught(r: Router, r': Router, lesson: Option<Lesson>) {
    forall ip :: Get(r'.ipToLoc, ip)
                 == if lesson.Some? && lesson.value.place.Some? && lesson.value.place.value.0 == ip then Some(lesson.value.place.value.1)
                    else Get(r.ipToLoc, ip)
  }

  /** A unicast frame goes to the port its destination was seen at, with a rule for the ones like it, or is
      flooded. */
  lemma L2Sends(cfg: Config, r: Router, e: PacketIn)
    ensures var seen := PortSeen(r, e.dpid, e.frame.dst);
            L2Forward(cfg, r, e) == Send(r, if seen.None? then FloodMsgs(cfg, e)
                                            else [FlowMod(e.dpid, MatchOf(e.frame, e.port), 30.0, 60.0, [Output(To(seen.value))], Some(e.frame))])
  {
    FloodingSends(cfg, r, e);
  }

  lemma MacIsTaught(r: Router, r': Router, e: PacketIn, lesson: Lesson)
    requires r'.macTable == LearnMac(r, e.dpid, lesson.mac, e.port).macTable
    ensures MacTaught(r, r', e, Some(lesson))
  {
  }

  lemma PlaceIsTaught(r: Router, r': Router, lesson: Lesson)
    requires r'.ipToLoc == if lesson.place.Some? then r.ipToLoc[lesson.place.value.0 := lesson.place.value.1] else r.ipToLoc
    ensures PlaceTaught(r, r', Some(lesson))
  {
  }

  lemma HostIsTaught(cfg: Config, r: Router, r': Router, e: PacketIn, ip: Addr, mac: Mac, zone: ZoneName)
    requires SourceValid(cfg, ip, zone) && ZoneOfPort(cfg, e.dpid, e.port) == Some(zone)
    requires SameTables(Learn(cfg, r, e.dpid, e.port, ip, mac, zone), r')
    ensures Taught(r, r', e, HonestLesson(cfg, e, ip, mac))
  {
    var lesson := HonestLesson(cfg, e, ip, mac).value;
    MacIsTaught(r, r', e, lesson);
    PlaceIsTaught(r, r', lesson);
  }

  lemma ArpEffects(cfg: Config, r: Router, r': Router, e: PacketIn)
    requires ConfigOk(cfg) && e.frame.payload.Arp? && (forall ip :: ip in r.pending ==> r.pending[ip].zone in cfg.gateways)
    requires r.outbox == [] && r' == HandleArp(cfg, r, e)
    ensures RulesOf(cfg, e, r'.outbox) && r'.log == r.log && r'.conns == r.conns
    ensures Taught(r, r', e, HonestLesson(cfg, e, e.frame.payload.protosrc, e.frame.payload.hwsrc))
  {
    var a, src := e.frame.payload, ZoneOfPort(cfg, e.dpid, e.port);
    if src.Some? && SourceValid(cfg, a.protosrc, src.value) {
      var learned := Learn(cfg, r, e.dpid, e.port, a.protosrc, a.hwsrc, src.value);
      CorePortIsInTheZone(cfg, e.dpid, e.port);
      LearningChecksNothing(cfg, r, e, a.protosrc, a.hwsrc, src.value);
      HonestArpEffects(cfg, learned, r', e, src.value);
      HostIsTaught(cfg, r, r', e, a.protosrc, a.hwsrc, src.value);
    } else {
      assert r' == r;
    }
  }

  lemma HonestArpEffects(cfg: Config, r: Router, r': Router, e: PacketIn, src: ZoneName)
    requires ConfigOk(cfg) && e.frame.payload.Arp? && src in cfg.gateways && e.frame.payload.protosrc in r.ipToLoc && r.outbox == []
    requires forall ip :: ip in r.pending ==> r.pending[ip].zone in cfg.gateways
    requires r' == HandleHonestArp(cfg, r, e, src)
    ensures RulesOf(cfg, e, r'.outbox) && r'.log == r.log && r'.conns == r.conns && SameTables(r, r')
  {
    HonestArpSends(cfg, r, r', e, src);
  }

  lemma IpEffects(cfg: Config, r: Router, r': Router, e: PacketIn, c: Readings)
    requires ConfigOk(cfg) && e.frame.payload.Ip?
    requires r.outbox == [] && r' == HandleIp(cfg, r, e, c)
    ensures RulesOf(cfg, e, r'.outbox) && OneCheck(r, r', e, c)
    ensures Taught(r, r', e, HonestLesson(cfg, e, e.frame.payload.ip.src, e.frame.src))
  {
    var ip, src := e.frame.payload.ip, ZoneOfPort(cfg, e.dpid, e.port);
    if src.Some? && SourceValid(cfg, ip.src, src.value) {
      LearningChecksNothing(cfg, r, e, ip.src, e.frame.src, src.value);
      HonestIpEffects(cfg, Learn(cfg, r, e.dpid, e.port, ip.src, e.frame.src, src.value), r', e, src.value, c);
      HostIsTaught(cfg, r, r', e, ip.src, e.frame.src, src.value);
    } else {
      assert r' == r;
    }
  }

  lemma LearningChecksNothing(cfg: Config, r: Router, e: PacketIn, ip: Addr, mac: Mac, zone: ZoneName)
    ensures var learned := Learn(cfg, r, e.dpid, e.port, ip, mac, zone);
            learned.log == r.log && learned.conns == r.conns && learned.outbox == r.outbox
  {
    LearningAMacChecksNothing(r, e, mac);
  }

  lemma LearningAMacChecksNothing(r: Router, e: PacketIn, mac: Mac)
    ensures var learned := LearnMac(r, e.dpid, mac, e.port);
            learned.log == r.log && learned.conns == r.conns && learned.outbox == r.outbox
  {
  }

  /** Any packet-in makes at most one check, of its own packet, installs rules only for its own match, and
      leaves in the tables what it teaches. */
  lemma PacketInEffects(cfg: Config, r: Router, r': Router, e: PacketIn, c: Readings)
    requires ConfigOk(cfg) && (forall ip :: ip in r.pending ==> r.pending[ip].zone in cfg.gateways)
    requires r.outbox == [] && r' == HandlePacketIn(cfg, r, e, c)
    ensures RulesOf(cfg, e, r'.outbox) && OneCheck(r, r', e, c)
    ensures Taught(r, r', e, LessonOf(cfg, e))
  {
    if e.complete && !e.frame.payload.Lldp? {
      if IsLeafUplink(cfg, e.dpid, e.port) {
        TransitEffects(cfg, r, r', e);
      } else if e.frame.payload.Ip? {
        IpEffects(cfg, r, r', e, c);
      } else if e.frame.payload.Arp? {
        ArpEffects(cfg, r, r', e);
      } else {
        FloodSends(cfg, r, r', e);
      }
    }
  }

  lemma TransitEffects(cfg: Config, r: Router, r': Router, e: PacketIn)
    requires r.outbox == [] && r' == HandleTransit(cfg, r, e)
    ensures RulesOf(cfg, e, r'.outbox) && r'.log == r.log && r'.conns == r.conns && Taught(r, r', e, Some(Lesson(e.frame.src, None)))
  {
    var learned := LearnMac(r, e.dpid, e.frame.src, e.port);
    if IsMulticast(e.frame.dst) {
      FloodSends(cfg, learned, r', e);
    } else {
      L2ForwardEffects(cfg, learned, r', e);
    }
    MacIsTaught(r, r', e, Lesson(e.frame.src, None));
    PlaceIsTaught(r, r', Lesson(e.frame.src, None));
  }
}
