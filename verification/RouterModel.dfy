/** controller.py as functions from state to state: what each handler of ZoneRouter does to the
    tables and which messages it sends. ZoneRouter.dfy holds the object and its methods. */
module RouterModel {
  import opened Common
  import opened Ipv4
  import opened Policy
  import opened ConnTrack
  import opened OpenFlow

  // --- Configuration ---------------------------------------------------------------------------

  datatype Gateway = Gateway(ip: Addr, mac: Mac)

  /** What `port_maps` derives from the layout. */
  datatype PortMaps = PortMaps(
    coreDpid: Dpid, switchZone: map<Dpid, ZoneName>,
    leafUplinkPort: map<Dpid, Port>, leafCorePort: map<Dpid, Port>, corePortZones: map<Port, ZoneName>)

  /** Everything fixed at start-up. `zoneOf`, `allowed` and `daemon` are the classifier, the Python
      firewall and the daemon's verdict; Deployment.dfy builds them from a policy. */
  datatype Config = Config(
    zoneOf: Addr -> Option<ZoneName>,
    gateways: map<ZoneName, Gateway>,
    allowed: (ZoneName, ZoneName, bool) -> bool,
    daemon: (Addr, Addr, nat) -> bool,
    maps: PortMaps,
    zoneCorePorts: map<ZoneName, seq<Port>>)

  const ROUTED_FLOW_IDLE_TIMEOUT: Time := 30.0
  const ROUTED_FLOW_HARD_TIMEOUT: Time := 60.0
  const DROP_FLOW_IDLE_TIMEOUT: Time := 10.0
  const DROP_FLOW_HARD_TIMEOUT: Time := 30.0
  const L2_FLOW_IDLE_TIMEOUT: Time := 30.0
  const L2_FLOW_HARD_TIMEOUT: Time := 60.0
  const ARP_RETRY_INTERVAL: Time := 1.0
  const ARP_MAX_RETRIES := 3
  const ICMP_DEST_UNREACH := 3
  const ICMP_CODE_HOST_UNREACH := 1
  const ICMP_TIME_EXCEEDED := 11
  const ICMP_CODE_TTL_EXCEEDED := 0
  const DEFAULT_TTL := 64

  function ZoneOfPort(cfg: Config, dpid: Dpid, port: Port): Option<ZoneName> {
    if dpid == cfg.maps.coreDpid then Get(cfg.maps.corePortZones, port) else Get(cfg.maps.switchZone, dpid)
  }

  predicate IsLeafUplink(cfg: Config, dpid: Dpid, port: Port) {
    Get(cfg.maps.leafUplinkPort, dpid) == Some(port)
  }

  function CorePortFor(cfg: Config, dpid: Dpid, port: Port): Option<Port> {
    if dpid == cfg.maps.coreDpid then Some(port) else Get(cfg.maps.leafCorePort, dpid)
  }

  function Get<K, V>(m: map<K, V>, k: K): Option<V> {
    if k in m then Some(m[k]) else None
  }

  function PortsOfZone(cfg: Config, zone: ZoneName): seq<Port> {
    if zone in cfg.zoneCorePorts then cfg.zoneCorePorts[zone] else []
  }

  predicate IsGateway(cfg: Config, ip: Addr) {
    exists z :: z in cfg.gateways && cfg.gateways[z].ip == ip
  }

  predicate SourceValid(cfg: Config, ip: Addr, zone: ZoneName) {
    zone in cfg.gateways && ip != cfg.gateways[zone].ip && cfg.zoneOf(ip) == Some(zone)
  }

  /** What the handlers rely on; Layout.dfy and Deployment.dfy show accepted files provide it. */
  ghost predicate ConfigOk(cfg: Config) {
    && (forall z :: z in cfg.gateways ==> cfg.zoneOf(cfg.gateways[z].ip) == Some(z))
    && (forall ip :: cfg.zoneOf(ip).Some? ==> cfg.zoneOf(ip).value in cfg.gateways)
    && MapsOk(cfg.maps)
    && (forall d :: d in cfg.maps.switchZone ==> cfg.maps.switchZone[d] in cfg.gateways)
    && (forall p :: p in cfg.maps.corePortZones ==> cfg.maps.corePortZones[p] in cfg.gateways)
    && InverseOf(cfg.zoneCorePorts, cfg.maps.corePortZones)
  }

  ghost predicate MapsOk(m: PortMaps) {
    && m.coreDpid !in m.switchZone
    && m.leafUplinkPort.Keys == m.switchZone.Keys && m.leafCorePort.Keys == m.switchZone.Keys
    && (forall d :: d in m.switchZone ==>
          m.leafCorePort[d] in m.corePortZones && m.corePortZones[m.leafCorePort[d]] == m.switchZone[d])
    && (forall d, e :: d in m.switchZone && e in m.switchZone && d != e ==> m.leafCorePort[d] != m.leafCorePort[e])
  }

  /** ZONE_CORE_PORTS lists each core port once, under its zone. */
  ghost predicate InverseOf(zoneCorePorts: map<ZoneName, seq<Port>>, corePortZones: map<Port, ZoneName>) {
    && (forall z, p :: z in zoneCorePorts && p in zoneCorePorts[z] <==> p in corePortZones && corePortZones[p] == z)
    && (forall z :: z in zoneCorePorts ==>
          forall i, j :: 0 <= i < j < |zoneCorePorts[z]| ==> zoneCorePorts[z][i] != zoneCorePorts[z][j])
  }

  // --- State -----------------------------------------------------------------------------------

  datatype Location = Location(corePort: Port, mac: Mac, zone: ZoneName)

  /** A queued packet: where it came in, its source MAC and its IP packet. */
  datatype Job = Job(dpid: Dpid, port: Port, mac: Mac, ip: IpPacket)

  type TimerId = nat

  datatype Entry = Entry(zone: ZoneName, queue: seq<Job>, retries: nat, timer: TimerId)

  /** A live recurring timer: its argument, when it is next due and when it was started. */
  datatype Timer = Timer(ip: Addr, due: Time, started: Time)

  datatype Msg =
    | PacketOut(dpid: Dpid, frame: Frame, out: OutPort)
    | FlowMod(dpid: Dpid, m: Match, idle: Time, hard: Time, actions: seq<Action>, data: Option<Frame>)

  datatype Fate = Forwarded | Unreachable

  /** How a queued packet left, and the pending entry (named by its timer) it left. */
  datatype Release = Release(job: Job, fate: Fate, entry: TimerId)

  /** What the connection table was asked, at which readings, and when the handler was done. */
  datatype Obs =
    | Check(ip: IpPacket, allowed: bool, verdict: Verdict, t: Time, s: Time, u: Time)
    | Sweep(readings: map<Flow, Time>, t: Time, u: Time)

  /** The object's fields, the messages it has sent, and four histories that nothing reads: the uses
      of the connection table, the packets queued and released per destination, and the probe
      rounds per pending entry. */
  datatype Router = Router(
    connections: set<Dpid>,
    macTable: map<Dpid, map<Mac, Port>>,
    ipToLoc: map<Addr, Location>,
    pending: map<Addr, Entry>,
    timers: map<TimerId, Timer>,
    nextTimer: TimerId,
    conns: Table,
    outbox: seq<Msg>,
    log: seq<Obs>,
    queued: map<Addr, seq<Job>>,
    released: map<Addr, seq<Release>>,
    rounds: multiset<TimerId>)

  const INITIAL := Router({}, map[], map[], map[], map[], 0, map[], [], [], map[], map[], multiset{})

  datatype PacketIn = PacketIn(dpid: Dpid, port: Port, frame: Frame, complete: bool)

  /** Which firewall answers a call of _firewall_allowed: the daemon, or Python because the daemon
      is disabled or unreachable. */
  datatype Backend = CppDaemon | PythonFallback

  /** What a handler takes from outside: the two clock readings of `check` (the second refreshes the
      entry), the time the handler is done, and the firewall that answers. */
  datatype Readings = Readings(t: Time, s: Time, u: Time, backend: Backend)

  function Send(r: Router, msgs: seq<Msg>): Router {
    r.(outbox := r.outbox + msgs)
  }

  function History<V>(m: map<Addr, seq<V>>, ip: Addr): seq<V> {
    if ip in m then m[ip] else []
  }

  // --- Sending ---------------------------------------------------------------------------------

  function OutAll(dpid: Dpid, f: Frame, ports: seq<Port>, except: Option<Port>): seq<Msg> {
    if ports == [] then []
    else (if except == Some(ports[0]) then [] else [PacketOut(dpid, f, To(ports[0]))])
         + OutAll(dpid, f, ports[1..], except)
  }

  function ArpReplyFrame(senderIp: Addr, senderMac: Mac, targetIp: Addr, targetMac: Mac): Frame {
    Frame(senderMac, targetMac, Arp(ARP_REPLY, senderMac, senderIp, targetMac, targetIp))
  }

  function ProbeFrame(gw: Gateway, ip: Addr): Frame {
    Frame(gw.mac, ETHER_BROADCAST, Arp(ARP_REQUEST, gw.mac, gw.ip, ETHER_BROADCAST, ip))
  }

  /** One probe round for a pending entry; without a core connection it reaches nobody. */
  function SendArpProbe(cfg: Config, r: Router, ip: Addr, zone: ZoneName, entry: TimerId): Router
    requires zone in cfg.gateways
  {
    var counted := r.(rounds := r.rounds + multiset{entry});
    if cfg.maps.coreDpid !in r.connections then counted
    else Send(counted, OutAll(cfg.maps.coreDpid, ProbeFrame(cfg.gateways[zone], ip), PortsOfZone(cfg, zone), None))
  }

  function IcmpErrorFrame(gw: Gateway, job: Job, icmpType: nat, code: nat): Frame {
    Frame(gw.mac, job.mac, Ip(IpPacket(gw.ip, job.ip.src, IPPROTO_ICMP, DEFAULT_TTL, icmpType, code, true, 0, Quote(job.ip))))
  }

  function SendIcmpError(cfg: Config, r: Router, job: Job, icmpType: nat, code: nat): Router
    requires ConfigOk(cfg)
  {
    var zone := ZoneOfPort(cfg, job.dpid, job.port);
    if job.dpid !in r.connections || zone.None? then r
    else Send(r, [PacketOut(job.dpid, IcmpErrorFrame(cfg.gateways[zone.value], job, icmpType, code), To(job.port))])
  }

  // --- Layer 2 ---------------------------------------------------------------------------------

  function LearnMac(r: Router, dpid: Dpid, mac: Mac, port: Port): Router {
    var ports := if dpid in r.macTable then r.macTable[dpid] else map[];
    r.(macTable := r.macTable[dpid := ports[mac := port]])
  }

  function Learn(cfg: Config, r: Router, dpid: Dpid, port: Port, ip: Addr, mac: Mac, zone: ZoneName): Router {
    var r' := LearnMac(r, dpid, mac, port);
    var corePort := CorePortFor(cfg, dpid, port);
    if corePort.None? then r' else r'.(ipToLoc := r'.ipToLoc[ip := Location(corePort.value, mac, zone)])
  }

  function FloodInZone(cfg: Config, r: Router, e: PacketIn): Router {
    if e.dpid == cfg.maps.coreDpid then
      var zone := Get(cfg.maps.corePortZones, e.port);
      if zone.None? then r
      else Send(r, OutAll(e.dpid, e.frame, PortsOfZone(cfg, zone.value), Some(e.port)))
    else Send(r, [PacketOut(e.dpid, e.frame, Flood)])
  }

  function L2Forward(cfg: Config, r: Router, e: PacketIn): Router {
    var out := if e.dpid in r.macTable then Get(r.macTable[e.dpid], e.frame.dst) else None;
    if out.None? then FloodInZone(cfg, r, e)
    else Send(r, [FlowMod(e.dpid, MatchOf(e.frame, e.port), L2_FLOW_IDLE_TIMEOUT, L2_FLOW_HARD_TIMEOUT,
                          [Output(To(out.value))], Some(e.frame))])
  }

  function HandleTransit(cfg: Config, r: Router, e: PacketIn): Router {
    var r' := LearnMac(r, e.dpid, e.frame.src, e.port);
    if IsMulticast(e.frame.dst) then FloodInZone(cfg, r', e) else L2Forward(cfg, r', e)
  }

  // --- Routing ---------------------------------------------------------------------------------

  function ForwardIp(cfg: Config, r: Router, job: Job, zone: ZoneName, out: Port, mac: Mac): Router
    requires zone in cfg.gateways
    requires ConfigOk(cfg)
  {
    if job.ip.ttl <= 1 then SendIcmpError(cfg, r, job, ICMP_TIME_EXCEEDED, ICMP_CODE_TTL_EXCEEDED)
    else if cfg.maps.coreDpid !in r.connections then r
    else
      var f := Frame(cfg.gateways[zone].mac, mac, Ip(job.ip.(ttl := job.ip.ttl - 1)));
      Send(r, [PacketOut(cfg.maps.coreDpid, f, To(out))])
  }

  function InstallDropFlow(r: Router, e: PacketIn): Router {
    Send(r, [FlowMod(e.dpid, MatchOf(e.frame, e.port), DROP_FLOW_IDLE_TIMEOUT, DROP_FLOW_HARD_TIMEOUT, [], None)])
  }

  function CoreRule(cfg: Config, e: PacketIn, zone: ZoneName, out: Port, mac: Mac): Msg
    requires zone in cfg.gateways && CorePortFor(cfg, e.dpid, e.port).Some?
  {
    FlowMod(cfg.maps.coreDpid, MatchOf(e.frame, e.port).(inPort := CorePortFor(cfg, e.dpid, e.port).value),
            ROUTED_FLOW_IDLE_TIMEOUT, ROUTED_FLOW_HARD_TIMEOUT, RouteActions(cfg.gateways[zone].mac, mac, out), None)
  }

  function LeafRule(cfg: Config, e: PacketIn): Msg
    requires e.dpid in cfg.maps.leafUplinkPort
  {
    FlowMod(e.dpid, MatchOf(e.frame, e.port), ROUTED_FLOW_IDLE_TIMEOUT, ROUTED_FLOW_HARD_TIMEOUT,
            [Output(To(cfg.maps.leafUplinkPort[e.dpid]))], None)
  }

  /** The core rule goes first, so that packets the leaf rule sends up find it there. */
  function InstallRouteFlows(cfg: Config, r: Router, e: PacketIn, zone: ZoneName, out: Port, mac: Mac): Router
    requires zone in cfg.gateways && CorePortFor(cfg, e.dpid, e.port).Some?
    requires e.dpid != cfg.maps.coreDpid ==> e.dpid in cfg.maps.leafUplinkPort
  {
    if cfg.maps.coreDpid !in r.connections then r
    else
      Send(r, [CoreRule(cfg, e, zone, out, mac)]
              + if e.dpid == cfg.maps.coreDpid then [] else [LeafRule(cfg, e)])
  }

  /** A new entry: send the first probe round and start the retry timer at time `u`. */
  function OpenEntry(cfg: Config, r: Router, ip: Addr, zone: ZoneName, u: Time): Router
    requires zone in cfg.gateways
  {
    var id := r.nextTimer;
    SendArpProbe(cfg, r, ip, zone, id).(
      pending := r.pending[ip := Entry(zone, [], 1, id)],
      timers := r.timers[id := Timer(ip, u + ARP_RETRY_INTERVAL, u)],
      nextTimer := id + 1)
  }

  function Enqueue(r: Router, job: Job): Router
    requires job.ip.dst in r.pending
  {
    var ip := job.ip.dst;
    r.(pending := r.pending[ip := r.pending[ip].(queue := r.pending[ip].queue + [job])],
       queued := r.queued[ip := History(r.queued, ip) + [job]])
  }

  function QueueAndResolve(cfg: Config, r: Router, job: Job, zone: ZoneName, u: Time): Router
    requires zone in cfg.gateways
  {
    Enqueue(if job.ip.dst in r.pending then r else OpenEntry(cfg, r, job.ip.dst, zone, u), job)
  }

  /** Tell every sender in the queue that the host is unreachable, in order. */
  function GiveUp(cfg: Config, r: Router, queue: seq<Job>, ip: Addr, entry: TimerId): Router
    requires ConfigOk(cfg)
    decreases queue
  {
    if queue == [] then r
    else
      var sent := SendIcmpError(cfg, r, queue[0], ICMP_DEST_UNREACH, ICMP_CODE_HOST_UNREACH);
      GiveUp(cfg, sent.(released := sent.released[ip := History(sent.released, ip) + [Release(queue[0], Unreachable, entry)]]),
             queue[1..], ip, entry)
  }

  /** Forward every packet in the queue, in order. */
  function ForwardAll(cfg: Config, r: Router, queue: seq<Job>, ip: Addr, entry: TimerId, zone: ZoneName, out: Port, mac: Mac): Router
    requires zone in cfg.gateways
    requires ConfigOk(cfg)
    decreases queue
  {
    if queue == [] then r
    else
      var sent := ForwardIp(cfg, r, queue[0], zone, out, mac);
      ForwardAll(cfg, sent.(released := sent.released[ip := History(sent.released, ip) + [Release(queue[0], Forwarded, entry)]]),
                 queue[1..], ip, entry, zone, out, mac)
  }

  /** The retry timer `id` fires at `now`. */
  function RetryArp(cfg: Config, r: Router, id: TimerId, now: Time): Router
    requires ConfigOk(cfg) && id in r.timers
    requires forall ip :: ip in r.pending ==> r.pending[ip].zone in cfg.gateways
  {
    var ip := r.timers[id].ip;
    var again := r.(timers := r.timers[id := r.timers[id].(due := now + ARP_RETRY_INTERVAL)]);
    if ip !in r.pending then again
    else
      var entry := r.pending[ip];
      if entry.retries >= ARP_MAX_RETRIES then
        GiveUp(cfg, r.(timers := r.timers - {entry.timer}, pending := r.pending - {ip}), entry.queue, ip, entry.timer)
      else ProbeAgain(cfg, again, ip)
  }

  function ProbeAgain(cfg: Config, r: Router, ip: Addr): Router
    requires ip in r.pending && r.pending[ip].zone in cfg.gateways
  {
    var entry := r.pending[ip];
    SendArpProbe(cfg, r, ip, entry.zone, entry.timer).(pending := r.pending[ip := entry.(retries := entry.retries + 1)])
  }

  function ResolvePending(cfg: Config, r: Router, ip: Addr, mac: Mac): Router
    requires ConfigOk(cfg) && ip in r.ipToLoc
    requires forall ip :: ip in r.pending ==> r.pending[ip].zone in cfg.gateways
  {
    if ip !in r.pending then r
    else
      var entry := r.pending[ip];
      ForwardAll(cfg, r.(timers := r.timers - {entry.timer}, pending := r.pending - {ip}),
                 entry.queue, ip, entry.timer, entry.zone, r.ipToLoc[ip].corePort, mac)
  }

  function Route(cfg: Config, r: Router, e: PacketIn, zone: ZoneName, u: Time): Router
    requires ConfigOk(cfg) && e.frame.payload.Ip? && zone in cfg.gateways && ZoneOfPort(cfg, e.dpid, e.port).Some?
  {
    var ip := e.frame.payload.ip;
    var job := Job(e.dpid, e.port, e.frame.src, ip);
    if ip.dst in r.ipToLoc then
      var loc := r.ipToLoc[ip.dst];
      var r' := if ip.ttl > 1 then InstallRouteFlows(cfg, r, e, zone, loc.corePort, loc.mac) else r;
      ForwardIp(cfg, r', job, zone, loc.corePort, loc.mac)
    else QueueAndResolve(cfg, r, job, zone, u)
  }

  // --- Packet-in handlers ----------------------------------------------------------------------

  /** `_tracked`: None when POX could not parse the transport header or the kind is not tracked. */
  function TrackedOf(ip: IpPacket): Option<TrackedPacket> {
    if HasTransport(ip.proto) && ip.parsed then Tracked(ip.src, ip.dst, ip.proto, ip.tpSrc, ip.tpDst, ip.tpSrc, ip.echoId)
    else None
  }

  /** `_firewall_allowed`: the daemon is sent the addresses, Python the zones. */
  function FirewallSays(cfg: Config, backend: Backend, src: ZoneName, dst: ZoneName, ip: IpPacket): bool {
    var isIcmp := ip.proto == IPPROTO_ICMP;
    if backend.CppDaemon? then cfg.daemon(ip.src, ip.dst, if isIcmp then IPPROTO_ICMP else 0)
    else cfg.allowed(src, dst, isIcmp)
  }

  function CheckConnection(cfg: Config, r: Router, ip: IpPacket, allowed: bool, c: Readings): Router {
    var tracked := TrackedOf(ip);
    r.(conns := AfterCheck(r.conns, IDLE_TIMEOUT, allowed, tracked, c.t, c.s),
       log := r.log + [Check(ip, allowed, VerdictOf(r.conns, IDLE_TIMEOUT, allowed, tracked, c.t), c.t, c.s, c.u)])
  }

  function HandleIp(cfg: Config, r: Router, e: PacketIn, c: Readings): Router
    requires ConfigOk(cfg) && e.frame.payload.Ip?
  {
    var ip, src := e.frame.payload.ip, ZoneOfPort(cfg, e.dpid, e.port);
    if src.None? || !SourceValid(cfg, ip.src, src.value) then r
    else HandleHonestIp(cfg, Learn(cfg, r, e.dpid, e.port, ip.src, e.frame.src, src.value), e, src.value, c)
  }

  /** _handle_ip from the point where the source has passed the anti-spoofing check. */
  function HandleHonestIp(cfg: Config, r: Router, e: PacketIn, src: ZoneName, c: Readings): Router
    requires ConfigOk(cfg) && e.frame.payload.Ip? && ZoneOfPort(cfg, e.dpid, e.port) == Some(src)
  {
    var ip := e.frame.payload.ip;
    var dst := cfg.zoneOf(ip.dst);
    if IsGateway(cfg, ip.dst) || dst.None? then r
    else if dst.value == src then L2Forward(cfg, r, e)
    else HandleCrossZoneIp(cfg, r, e, src, dst.value, c)
  }

  function HandleCrossZoneIp(cfg: Config, r: Router, e: PacketIn, src: ZoneName, dst: ZoneName, c: Readings): Router
    requires ConfigOk(cfg) && e.frame.payload.Ip? && ZoneOfPort(cfg, e.dpid, e.port) == Some(src) && dst in cfg.gateways
  {
    var ip := e.frame.payload.ip;
    var checked := CheckConnection(cfg, r, ip, FirewallSays(cfg, c.backend, src, dst, ip), c);
    if checked.log[|checked.log| - 1].verdict == Drop then InstallDropFlow(checked, e)
    else Route(cfg, checked, e, dst, c.u)
  }

  function HandleArp(cfg: Config, r: Router, e: PacketIn): Router
    requires ConfigOk(cfg) && e.frame.payload.Arp?
    requires forall ip :: ip in r.pending ==> r.pending[ip].zone in cfg.gateways
  {
    var a, src := e.frame.payload, ZoneOfPort(cfg, e.dpid, e.port);
    if src.None? || !SourceValid(cfg, a.protosrc, src.value) then r
    else
      var learned := Learn(cfg, r, e.dpid, e.port, a.protosrc, a.hwsrc, src.value);
      CorePortIsInTheZone(cfg, e.dpid, e.port);
      HandleHonestArp(cfg, learned, e, src.value)
  }

  /** _handle_arp from the point where the sender has been learned. */
  function HandleHonestArp(cfg: Config, r: Router, e: PacketIn, src: ZoneName): Router
    requires ConfigOk(cfg) && e.frame.payload.Arp? && src in cfg.gateways && e.frame.payload.protosrc in r.ipToLoc
    requires forall ip :: ip in r.pending ==> r.pending[ip].zone in cfg.gateways
  {
    var a := e.frame.payload;
    if a.opcode == ARP_REQUEST && IsGateway(cfg, a.protodst) then
      Send(r, [PacketOut(e.dpid, ArpReplyFrame(a.protodst, cfg.gateways[src].mac, a.protosrc, a.hwsrc), To(e.port))])
    else if a.opcode == ARP_REPLY && IsGateway(cfg, a.protodst) then
      ResolvePending(cfg, r, a.protosrc, a.hwsrc)
    else FloodInZone(cfg, r, e)
  }

  /** A host port and the core port it is reached through lie in the same zone. */
  lemma CorePortIsInTheZone(cfg: Config, dpid: Dpid, port: Port)
    requires MapsOk(cfg.maps) && ZoneOfPort(cfg, dpid, port).Some?
    ensures CorePortFor(cfg, dpid, port).Some?
    ensures Get(cfg.maps.corePortZones, CorePortFor(cfg, dpid, port).value) == ZoneOfPort(cfg, dpid, port)
    ensures dpid != cfg.maps.coreDpid ==> dpid in cfg.maps.leafUplinkPort
  {
  }

  function HandlePacketIn(cfg: Config, r: Router, e: PacketIn, c: Readings): Router
    requires ConfigOk(cfg)
    requires forall ip :: ip in r.pending ==> r.pending[ip].zone in cfg.gateways
  {
    if !e.complete || e.frame.payload.Lldp? then r
    else if IsLeafUplink(cfg, e.dpid, e.port) then HandleTransit(cfg, r, e)
    else match e.frame.payload
      case Arp(_, _, _, _, _) => HandleArp(cfg, r, e)
      case Ip(_) => HandleIp(cfg, r, e, c)
      case _ => FloodInZone(cfg, r, e)
  }

  function HandleConnectionUp(r: Router, dpid: Dpid): Router {
    r.(connections := r.connections + {dpid},
       macTable := if dpid in r.macTable then r.macTable else r.macTable[dpid := map[]])
  }

  function HandleSweep(r: Router, readings: map<Flow, Time>, t: Time, u: Time): Router {
    r.(conns := AfterSweep(r.conns, IDLE_TIMEOUT, readings), log := r.log + [Sweep(readings, t, u)])
  }
}
