/** Pieces from which concrete runs are put together: hosts announce themselves to the core, and packets
    between two of them come to the controller or are taken by a rule. */
module Runs {
  import opened Common
  import opened Ipv4
  import opened Policy
  import opened ConnTrack
  import opened OpenFlow
  import opened RouterModel
  import opened RouterEffects
  import opened DataPlane
  import opened Floods
  import opened RunLog
  import opened Messages
  import opened KeepAlive
  import opened Routing

  // --- Packets ---------------------------------------------------------------------------------

  /** The controller takes no time, and the daemon is not in use. */
  function At(now: Time): Readings {
    Readings(now, now, now, PythonFallback)
  }

  /** A TCP or UDP flow, or one of echo packets. */
  predicate IsFlow(f: Flow) {
    f.proto == IPPROTO_TCP || f.proto == IPPROTO_UDP || (f.proto == ConnTrack.IPPROTO_ICMP && f.sport == f.dport)
  }

  /** A packet of the flow; of an echo flow, a request if `opens` and a reply if not. */
  function PacketOf(f: Flow, opens: bool): IpPacket {
    if f.proto == ConnTrack.IPPROTO_ICMP then IpPacket(f.src, f.dst, f.proto, 64, EchoType(opens), 0, true, f.sport, Data([]))
    else IpPacket(f.src, f.dst, f.proto, 64, f.sport, f.dport, true, 0, Data([]))
  }

  lemma PacketIsOfItsFlow(f: Flow, opens: bool)
    requires IsFlow(f)
    ensures CanBe(PacketOf(f, opens), opens) && FlowOf(PacketOf(f, opens)) == f && TrackedOf(PacketOf(f, opens)).value.flow == f
  {
  }

  function FrameOf(ip: IpPacket): Frame {
    Frame("host", "gateway", Ip(ip))
  }

  /** A host address of the zone, and a core port of the zone. */
  predicate HostAt(cfg: Config, ip: Addr, zone: ZoneName, port: Port) {
    Get(cfg.maps.corePortZones, port) == Some(zone) && SourceValid(cfg, ip, zone) && !IsGateway(cfg, ip)
  }

  lemma CoreIsNoLeaf(cfg: Config, port: Port)
    requires ConfigOk(cfg)
    ensures !IsLeafUplink(cfg, cfg.maps.coreDpid, port)
  {
  }

  /** The core is connected, nothing waits and nothing is left to send. */
  ghost predicate Calm(cfg: Config, n: Net, now: Time) {
    && cfg.maps.coreDpid in n.router.connections && n.router.pending == map[] && n.router.timers == map[]
    && n.router.outbox == [] && n.now == now
  }

  // --- Announcements ---------------------------------------------------------------------------

  /** Nothing but announcements so far, at time zero. */
  ghost predicate Quiet(cfg: Config, n: Net) {
    Calm(cfg, n, 0.0) && TableOf(n, cfg.maps.coreDpid) == map[] && n.router.conns == map[] && n.router.log == []
  }

  /** A host announces itself. */
  function Hello(ip: Addr): Frame {
    Frame("host", ETHER_BROADCAST, Arp(ARP_REQUEST, "host", ip, ETHER_BROADCAST, ip))
  }

  function HelloStep(cfg: Config, ip: Addr, port: Port): Step {
    Arrive(cfg.maps.coreDpid, port, Hello(ip), true, None, At(0.0))
  }

  lemma HelloIsFlooded(cfg: Config, r: Router, ip: Addr, zone: ZoneName, port: Port)
    requires ConfigOk(cfg) && HostAt(cfg, ip, zone, port) && r.pending == map[] && r.outbox == []
    ensures var r' := HandlePacketIn(cfg, r, PacketIn(cfg.maps.coreDpid, port, Hello(ip), true), At(0.0));
            OnlySends(Learn(cfg, r, cfg.maps.coreDpid, port, ip, "host", zone), r')
  {
    var e := PacketIn(cfg.maps.coreDpid, port, Hello(ip), true);
    CoreIsNoLeaf(cfg, port);
    var learned := Learn(cfg, r, e.dpid, port, ip, "host", zone);
    var r' := HandlePacketIn(cfg, r, e, At(0.0));
    assert r' == FloodInZone(cfg, learned, e);
    FloodSends(cfg, learned, r', e);
  }

  /** After the announcement the host's location is known and nothing else that matters has changed. */
  lemma HelloIsLearned(cfg: Config, n: Net, ip: Addr, zone: ZoneName, port: Port)
    requires ConfigOk(cfg) && Quiet(cfg, n) && HostAt(cfg, ip, zone, port)
    ensures Consistent(cfg, n.router) && Enabled(cfg, n, HelloStep(cfg, ip, port), 0.0)
    ensures var n' := Apply(cfg, n, HelloStep(cfg, ip, port));
            Quiet(cfg, n') && n'.router.ipToLoc == n.router.ipToLoc[ip := Location(port, "host", zone)]
  {
    CoreIsNoLeaf(cfg, port);
    HelloIsFlooded(cfg, n.router, ip, zone, port);
    var learned := Learn(cfg, n.router, cfg.maps.coreDpid, port, ip, "host", zone);
    OnlySendingKeepsTables(cfg, n, learned, HandlePacketIn(cfg, n.router, PacketIn(cfg.maps.coreDpid, port, Hello(ip), true), At(0.0)), 0.0);
  }

  // --- One packet comes to the controller ------------------------------------------------------

  /** The packet goes from a host of zone `a`, behind core port `port`, to a known host of zone `b`. */
  ghost predicate Crossing(cfg: Config, r: Router, ip: IpPacket, port: Port, a: ZoneName, b: ZoneName) {
    && HostAt(cfg, ip.src, a, port) && SourceValid(cfg, ip.dst, b) && !IsGateway(cfg, ip.dst) && ip.dst in r.ipToLoc
    && a != b && ip.ttl == 64
  }

  predicate Allowed(cfg: Config, ip: IpPacket, a: ZoneName, b: ZoneName) {
    cfg.allowed(a, b, ip.proto == ConnTrack.IPPROTO_ICMP)
  }

  /** Whether the firewall lets the packet through. */
  predicate WouldPass(cfg: Config, conns: Table, ip: IpPacket, a: ZoneName, b: ZoneName, now: Time) {
    VerdictOf(conns, IDLE_TIMEOUT, Allowed(cfg, ip, a, b), TrackedOf(ip), now) != Drop
  }

  /** The rule made for a checked packet: it routes if the packet passed, and drops if not. */
  function RuleFor(passed: bool, gateway: Gateway, loc: Location, now: Time): Rule {
    if passed then CoreEntry(gateway, loc, now) else DropRule(now)
  }

  /** What the controller orders: the rule, and the packet if it passed. */
  function Orders(dpid: Dpid, ip: IpPacket, port: Port, passed: bool, gateway: Gateway, loc: Location): seq<Msg>
    requires ip.ttl > 0
  {
    var rule := RuleFor(passed, gateway, loc, 0.0);
    [FlowMod(dpid, MatchOf(FrameOf(ip), port), rule.idle, rule.hard, rule.actions, None)]
    + if passed then [PacketOut(dpid, OneHopOn(ip, gateway, loc), To(loc.corePort))] else []
  }

  lemma RouteSends(cfg: Config, r: Router, ip: IpPacket, port: Port, a: ZoneName, b: ZoneName, u: Time)
    requires ConfigOk(cfg) && b in cfg.gateways && Crossing(cfg, r, ip, port, a, b) && cfg.maps.coreDpid in r.connections
    ensures Route(cfg, r, PacketIn(cfg.maps.coreDpid, port, FrameOf(ip), true), b, u)
            == Send(r, Orders(cfg.maps.coreDpid, ip, port, true, cfg.gateways[b], r.ipToLoc[ip.dst]))
  {
    var e, loc := PacketIn(cfg.maps.coreDpid, port, FrameOf(ip), true), r.ipToLoc[ip.dst];
    var rule, m := CoreRule(cfg, e, b, loc.corePort, loc.mac), PacketOut(e.dpid, OneHopOn(ip, cfg.gateways[b], loc), To(loc.corePort));
    assert r.outbox + [rule] + [m] == r.outbox + ([rule] + [m]);
    assert Route(cfg, r, e, b, u) == Send(Send(r, [rule] + []), [m]);
  }

  /** A known host at the core: one check, one rule, and the packet if it passes. */
  lemma CheckedSends(cfg: Config, r: Router, ip: IpPacket, port: Port, a: ZoneName, b: ZoneName, now: Time)
    requires ConfigOk(cfg) && b in cfg.gateways && Crossing(cfg, r, ip, port, a, b) && cfg.maps.coreDpid in r.connections
    ensures HandleCrossZoneIp(cfg, r, PacketIn(cfg.maps.coreDpid, port, FrameOf(ip), true), a, b, At(now))
            == Send(CheckConnection(cfg, r, ip, Allowed(cfg, ip, a, b), At(now)),
                    Orders(cfg.maps.coreDpid, ip, port, WouldPass(cfg, r.conns, ip, a, b, now), cfg.gateways[b], r.ipToLoc[ip.dst]))
  {
    var checked := CheckConnection(cfg, r, ip, Allowed(cfg, ip, a, b), At(now));
    RouteSends(cfg, checked, ip, port, a, b, now);
  }

  /** The controller's state after the packet. */
  function AfterSeeing(cfg: Config, r: Router, ip: IpPacket, port: Port, a: ZoneName, b: ZoneName, now: Time): Router {
    CheckConnection(cfg, Learn(cfg, r, cfg.maps.coreDpid, port, ip.src, "host", a), ip, Allowed(cfg, ip, a, b), At(now))
  }

  lemma SeenIsHandled(cfg: Config, r: Router, ip: IpPacket, port: Port, a: ZoneName, b: ZoneName, now: Time)
    requires ConfigOk(cfg) && Crossing(cfg, r, ip, port, a, b) && cfg.maps.coreDpid in r.connections && r.pending == map[] && r.outbox == []
    ensures b in cfg.gateways
    ensures HandlePacketIn(cfg, r, PacketIn(cfg.maps.coreDpid, port, FrameOf(ip), true), At(now))
            == AfterSeeing(cfg, r, ip, port, a, b, now).(
                 outbox := Orders(cfg.maps.coreDpid, ip, port, WouldPass(cfg, r.conns, ip, a, b, now), cfg.gateways[b], r.ipToLoc[ip.dst]))
  {
    CoreIsNoLeaf(cfg, port);
    var e := PacketIn(cfg.maps.coreDpid, port, FrameOf(ip), true);
    var learned := Learn(cfg, r, e.dpid, port, ip.src, "host", a);
    assert learned.ipToLoc == r.ipToLoc[ip.src := Location(port, "host", a)] && ip.src != ip.dst;
    assert HandlePacketIn(cfg, r, e, At(now)) == HandleHonestIp(cfg, learned, e, a, At(now)) == HandleCrossZoneIp(cfg, learned, e, a, b, At(now));
    CheckedSends(cfg, learned, ip, port, a, b, now);
  }

  /** The switches carry out the orders: the rule is installed, and the packet goes out if it passed. */
  lemma OrdersAreObeyed(cfg: Config, n: Net, ip: IpPacket, port: Port, passed: bool, gateway: Gateway, loc: Location)
    requires ip.ttl > 0
    ensures var n', dpid := ObeyAll(cfg, n, Orders(cfg.maps.coreDpid, ip, port, passed, gateway, loc)), cfg.maps.coreDpid;
            && n'.tables == n.tables[dpid := TableOf(n, dpid)[MatchOf(FrameOf(ip), port) := RuleFor(passed, gateway, loc, n.now)]]
            && n'.trace == n.trace + if passed then [Sent(n.now, dpid, To(loc.corePort), OneHopOn(ip, gateway, loc), false)] else []
  {
    var msgs := Orders(cfg.maps.coreDpid, ip, port, passed, gateway, loc);
    var mid := Obey(cfg, n, msgs[0]);
    if passed {
      assert msgs[1..] == [msgs[1]] && msgs[1..][1..] == [];
      assert ObeyAll(cfg, n, msgs) == ObeyAll(cfg, mid, msgs[1..]) == ObeyAll(cfg, Obey(cfg, mid, msgs[1]), []);
    } else {
      assert msgs[1..] == [];
      assert ObeyAll(cfg, n, msgs) == ObeyAll(cfg, mid, []);
    }
  }

  function SeenStep(cfg: Config, ip: IpPacket, port: Port, now: Time): Step {
    Arrive(cfg.maps.coreDpid, port, FrameOf(ip), true, None, At(now))
  }

  /** After the controller has seen the packet. */
  ghost predicate Seen(cfg: Config, n: Net, n': Net, ip: IpPacket, port: Port, a: ZoneName, b: ZoneName, now: Time)
    requires ip.dst in n.router.ipToLoc && b in cfg.gateways && ip.ttl > 0
  {
    var passed, loc := WouldPass(cfg, n.router.conns, ip, a, b, now), n.router.ipToLoc[ip.dst];
    && Calm(cfg, n', now)
    && n'.router.ipToLoc == n.router.ipToLoc[ip.src := Location(port, "host", a)]
    && n'.router.conns == AfterCheck(n.router.conns, IDLE_TIMEOUT, Allowed(cfg, ip, a, b), TrackedOf(ip), now, now)
    && |n'.router.log| == |n.router.log| + 1 && n'.router.log[..|n.router.log|] == n.router.log && n'.router.log[|n.router.log|].Check?
    && n'.router.log[|n.router.log|].ip == ip
    && TableOf(n', cfg.maps.coreDpid) == TableOf(n, cfg.maps.coreDpid)[MatchOf(FrameOf(ip), port) := RuleFor(passed, cfg.gateways[b], loc, now)]
    && n'.trace == n.trace + if passed then [Sent(now, cfg.maps.coreDpid, To(loc.corePort), OneHopOn(ip, cfg.gateways[b], loc), false)] else []
  }

  ghost predicate NoneTakes(cfg: Config, n: Net, ip: IpPacket, port: Port) {
    forall m :: !Hits(n, cfg.maps.coreDpid, m, FrameOf(ip), port)
  }

  /** The switches have carried out what the controller made of the packet. */
  lemma DeliveredIsSeen(cfg: Config, n: Net, r': Router, ip: IpPacket, port: Port, a: ZoneName, b: ZoneName, now: Time)
    requires Calm(cfg, n, now) && ip.dst in n.router.ipToLoc && b in cfg.gateways && ip.ttl > 0 && ip.src != ip.dst
    requires ZoneOfPort(cfg, cfg.maps.coreDpid, port) == Some(a)
    requires r' == AfterSeeing(cfg, n.router, ip, port, a, b, now).(
                     outbox := Orders(cfg.maps.coreDpid, ip, port, WouldPass(cfg, n.router.conns, ip, a, b, now), cfg.gateways[b], n.router.ipToLoc[ip.dst]))
    ensures Seen(cfg, n, Deliver(cfg, n, r', now), ip, port, a, b, now)
  {
    DeliveryKeepsRouter(cfg, n, r', now);
    OrdersAreObeyed(cfg, n.(router := r'.(outbox := []), now := now), ip, port, WouldPass(cfg, n.router.conns, ip, a, b, now),
                    cfg.gateways[b], n.router.ipToLoc[ip.dst]);
  }

  lemma PacketIsSeen(cfg: Config, n: Net, ip: IpPacket, port: Port, a: ZoneName, b: ZoneName, now: Time)
    requires ConfigOk(cfg) && Calm(cfg, n, now) && Crossing(cfg, n.router, ip, port, a, b) && NoneTakes(cfg, n, ip, port)
    ensures Consistent(cfg, n.router) && Enabled(cfg, n, SeenStep(cfg, ip, port, now), 0.0) && b in cfg.gateways
    ensures Seen(cfg, n, Apply(cfg, n, SeenStep(cfg, ip, port, now)), ip, port, a, b, now)
  {
    CoreIsNoLeaf(cfg, port);
    SeenIsHandled(cfg, n.router, ip, port, a, b, now);
    DeliveredIsSeen(cfg, n, HandlePacketIn(cfg, n.router, PacketIn(cfg.maps.coreDpid, port, FrameOf(ip), true), At(now)), ip, port, a, b, now);
  }

  // --- One packet is taken by a rule -----------------------------------------------------------

  function TakenStep(cfg: Config, ip: IpPacket, port: Port, m: Match): Step {
    Arrive(cfg.maps.coreDpid, port, FrameOf(ip), true, Some(m), At(0.0))
  }

  /** After a rule has taken the packet: the controller has learned nothing of it. */
  ghost predicate Taken(cfg: Config, n: Net, n': Net, ip: IpPacket, m: Match, now: Time)
    requires m in TableOf(n, cfg.maps.coreDpid)
  {
    var rule := TableOf(n, cfg.maps.coreDpid)[m];
    && n'.router == n.router && n'.now == now
    && TableOf(n', cfg.maps.coreDpid) == TableOf(n, cfg.maps.coreDpid)[m := rule.(lastHit := now)]
    && forall gateway: Gateway, loc: Location :: rule.actions == RouteActions(gateway.mac, loc.mac, loc.corePort) && ip.ttl > 1 ==>
         n'.trace == n.trace + [Sent(now, cfg.maps.coreDpid, To(loc.corePort), OneHopOn(ip, gateway, loc), true)]
  }

  lemma RoutedByRule(cfg: Config, n: Net, dpid: Dpid, ip: IpPacket, gateway: Gateway, loc: Location)
    requires ip.ttl > 1
    ensures EmitAll(cfg, n, dpid, Execute(RouteActions(gateway.mac, loc.mac, loc.corePort), FrameOf(ip)), true).trace
            == n.trace + [Sent(n.now, dpid, To(loc.corePort), OneHopOn(ip, gateway, loc), true)]
  {
    RouteActionsRoute(gateway.mac, loc.mac, loc.corePort, FrameOf(ip));
    var outs := [(To(loc.corePort), OneHopOn(ip, gateway, loc))];
    assert outs[1..] == [];
    assert EmitAll(cfg, n, dpid, outs, true) == EmitAll(cfg, Emit(cfg, n, dpid, outs[0].0, outs[0].1, true), dpid, [], true);
  }

  lemma PacketIsTaken(cfg: Config, n: Net, ip: IpPacket, port: Port, m: Match, now: Time)
    requires ConfigOk(cfg) && Calm(cfg, n, now) && Hits(n, cfg.maps.coreDpid, m, FrameOf(ip), port)
    ensures Consistent(cfg, n.router) && Enabled(cfg, n, TakenStep(cfg, ip, port, m), 0.0)
    ensures Taken(cfg, n, Apply(cfg, n, TakenStep(cfg, ip, port, m)), ip, m, now)
  {
    CoreIsNoLeaf(cfg, port);
    var dpid, rule := cfg.maps.coreDpid, TableOf(n, cfg.maps.coreDpid)[m];
    var hit := Install(n, dpid, m, rule.(lastHit := now));
    EmittingChangesNoTable(cfg, hit, dpid, Execute(rule.actions, FrameOf(ip)), true);
    forall gateway: Gateway, loc: Location | rule.actions == RouteActions(gateway.mac, loc.mac, loc.corePort) && ip.ttl > 1
      ensures EmitAll(cfg, hit, dpid, Execute(rule.actions, FrameOf(ip)), true).trace
              == n.trace + [Sent(now, dpid, To(loc.corePort), OneHopOn(ip, gateway, loc), true)]
    {
      RoutedByRule(cfg, hit, dpid, ip, gateway, loc);
    }
  }

  // --- Runs ------------------------------------------------------------------------------------

  /** Which IP packets may come to the controller. */
  type Comers = IpPacket -> bool

  ghost predicate OnlyThese(steps: seq<Step>, comers: Comers) {
    forall q :: 0 <= q < |steps| && ToController(steps[q]) ==> comers(steps[q].frame.payload.ip)
  }

  /** A run with a controller that takes no time and timers on time. */
  ghost predicate Fair(cfg: Config, steps: seq<Step>, nets: seq<Net>, comers: Comers)
    requires ConfigOk(cfg)
  {
    IsRun(cfg, steps, nets, 0.0) && OnlyThese(steps, comers) && Prompt(steps, 0.0) && Swift(steps, nets, 0.0)
  }

  ghost predicate FairStep(n: Net, s: Step, comers: Comers) {
    && (s.Arrive? ==> s.c.u <= s.c.t && (s.via.None? ==> s.c.u <= n.now))
    && (ToController(s) ==> comers(s.frame.payload.ip))
  }

  lemma ExtendFair(cfg: Config, steps: seq<Step>, nets: seq<Net>, s: Step, comers: Comers) returns (steps': seq<Step>, nets': seq<Net>)
    requires ConfigOk(cfg) && Fair(cfg, steps, nets, comers) && FairStep(nets[|steps|], s, comers)
    requires Consistent(cfg, nets[|steps|].router) && Enabled(cfg, nets[|steps|], s, 0.0)
    ensures Fair(cfg, steps', nets', comers) && steps' == steps + [s] && nets' == nets + [Apply(cfg, nets[|steps|], s)]
  {
    steps', nets' := steps + [s], nets + [Apply(cfg, nets[|steps|], s)];
    RunGrows(cfg, steps, nets, s, Apply(cfg, nets[|steps|], s), 0.0);
  }

  lemma HelloInTime(cfg: Config, steps: seq<Step>, nets: seq<Net>, comers: Comers, ip: Addr, zone: ZoneName, port: Port)
    returns (steps': seq<Step>, nets': seq<Net>)
    requires ConfigOk(cfg) && Fair(cfg, steps, nets, comers) && Quiet(cfg, nets[|steps|]) && HostAt(cfg, ip, zone, port)
    ensures Fair(cfg, steps', nets', comers) && Quiet(cfg, nets'[|steps'|]) && steps' == steps + [HelloStep(cfg, ip, port)]
    ensures nets'[|steps'|].router.ipToLoc == nets[|steps|].router.ipToLoc[ip := Location(port, "host", zone)]
  {
    HelloIsLearned(cfg, nets[|steps|], ip, zone, port);
    steps', nets' := ExtendFair(cfg, steps, nets, HelloStep(cfg, ip, port), comers);
  }

  /** The core connects and the two hosts announce themselves. */
  lemma Prologue(cfg: Config, comers: Comers, x: Addr, y: Addr, a: ZoneName, b: ZoneName, p: Port, q: Port) returns (steps: seq<Step>, nets: seq<Net>)
    requires ConfigOk(cfg) && HostAt(cfg, x, a, p) && HostAt(cfg, y, b, q)
    ensures Fair(cfg, steps, nets, comers) && Quiet(cfg, nets[|steps|])
    ensures steps == [ConnectionUp(cfg.maps.coreDpid), HelloStep(cfg, x, p), HelloStep(cfg, y, q)]
    ensures x in nets[|steps|].router.ipToLoc && y in nets[|steps|].router.ipToLoc
  {
    steps, nets := ExtendFair(cfg, [], [START], ConnectionUp(cfg.maps.coreDpid), comers);
    steps, nets := HelloInTime(cfg, steps, nets, comers, x, a, p);
    steps, nets := HelloInTime(cfg, steps, nets, comers, y, b, q);
  }

  /** Time passes until `now`, and a packet comes to the controller. */
  lemma ThenSeen(cfg: Config, steps: seq<Step>, nets: seq<Net>, comers: Comers, ip: IpPacket, port: Port, a: ZoneName, b: ZoneName, before: Time, now: Time)
    returns (steps': seq<Step>, nets': seq<Net>)
    requires ConfigOk(cfg) && Fair(cfg, steps, nets, comers) && Calm(cfg, nets[|steps|], before) && before <= now && comers(ip)
    requires Crossing(cfg, nets[|steps|].router, ip, port, a, b) && NoneTakes(cfg, nets[|steps|].(now := now), ip, port)
    ensures Fair(cfg, steps', nets', comers) && b in cfg.gateways && |steps'| == |steps| + 2 && nets <= nets'
    ensures steps' == steps + [Wait(now), SeenStep(cfg, ip, port, now)] && nets'[|steps| + 1].now == now
    ensures Seen(cfg, nets[|steps|], nets'[|steps'|], ip, port, a, b, now)
  {
    var n := nets[|steps|];
    var s1, n1 := ExtendFair(cfg, steps, nets, Wait(now), comers);
    PacketIsSeen(cfg, n.(now := now), ip, port, a, b, now);
    steps', nets' := ExtendFair(cfg, s1, n1, SeenStep(cfg, ip, port, now), comers);
  }

  /** Time passes until `now`, and a packet is taken by a rule. */
  lemma ThenTaken(cfg: Config, steps: seq<Step>, nets: seq<Net>, comers: Comers, ip: IpPacket, port: Port, m: Match, before: Time, now: Time)
    returns (steps': seq<Step>, nets': seq<Net>)
    requires ConfigOk(cfg) && Fair(cfg, steps, nets, comers) && Calm(cfg, nets[|steps|], before) && before <= now
    requires Hits(nets[|steps|].(now := now), cfg.maps.coreDpid, m, FrameOf(ip), port)
    ensures Fair(cfg, steps', nets', comers) && |steps'| == |steps| + 2 && nets <= nets'
    ensures steps' == steps + [Wait(now), TakenStep(cfg, ip, port, m)] && nets'[|steps| + 1] == nets[|steps|].(now := now)
    ensures Taken(cfg, nets[|steps|], nets'[|steps'|], ip, m, now)
  {
    var n := nets[|steps|];
    var s1, n1 := ExtendFair(cfg, steps, nets, Wait(now), comers);
    PacketIsTaken(cfg, n.(now := now), ip, port, m, now);
    steps', nets' := ExtendFair(cfg, s1, n1, TakenStep(cfg, ip, port, m), comers);
  }
}
