/** The daemon and the Python firewall are interchangeable: no schedule of daemon failures and
    reconnects changes anything the controller or the switches do. */
module Backends {
  import opened Common
  import opened Ipv4
  import opened Policy
  import opened ConnTrack
  import opened OpenFlow
  import opened RouterModel
  import opened RouterInv
  import opened RouterPacketIn
  import opened RouterEffects
  import opened DataPlane

  function InPython(c: Readings): Readings {
    c.(backend := PythonFallback)
  }

  function StepInPython(s: Step): Step {
    if s.Arrive? then s.(c := InPython(s.c)) else s
  }

  /** The same steps, with every firewall question answered by Python. */
  function AllInPython(steps: seq<Step>): seq<Step> {
    seq(|steps|, i requires 0 <= i < |steps| => StepInPython(steps[i]))
  }

  /** The anti-spoofing check makes the zone of the source address the zone of the port, so the
      firewall asked by address and the one asked by zone are asked about the same pair. */
  lemma HonestIpIsTheSame(cfg: Config, r: Router, e: PacketIn, src: ZoneName, c: Readings)
    requires ConfigOk(cfg) && DaemonAgrees(cfg) && e.frame.payload.Ip? && ZoneOfPort(cfg, e.dpid, e.port) == Some(src)
    requires SourceValid(cfg, e.frame.payload.ip.src, src)
    ensures HandleHonestIp(cfg, r, e, src, c) == HandleHonestIp(cfg, r, e, src, InPython(c))
  {
    var ip := e.frame.payload.ip;
    var dst := cfg.zoneOf(ip.dst);
    if dst.Some? {
      BothFirewallsSayPolicy(cfg, c.backend, e, src, dst.value);
      BothFirewallsSayPolicy(cfg, PythonFallback, e, src, dst.value);
      assert CheckConnection(cfg, r, ip, FirewallSays(cfg, c.backend, src, dst.value, ip), c)
          == CheckConnection(cfg, r, ip, FirewallSays(cfg, PythonFallback, src, dst.value, ip), InPython(c));
    }
  }

  lemma PacketInIsTheSame(cfg: Config, r: Router, e: PacketIn, c: Readings)
    requires ConfigOk(cfg) && DaemonAgrees(cfg) && Consistent(cfg, r)
    ensures HandlePacketIn(cfg, r, e, c) == HandlePacketIn(cfg, r, e, InPython(c))
  {
    if e.frame.payload.Ip? {
      IpIsTheSame(cfg, r, e, c);
    }
  }

  lemma IpIsTheSame(cfg: Config, r: Router, e: PacketIn, c: Readings)
    requires ConfigOk(cfg) && DaemonAgrees(cfg) && e.frame.payload.Ip?
    ensures HandleIp(cfg, r, e, c) == HandleIp(cfg, r, e, InPython(c))
  {
    var ip, src := e.frame.payload.ip, ZoneOfPort(cfg, e.dpid, e.port);
    if src.Some? && SourceValid(cfg, ip.src, src.value) {
      HonestIpIsTheSame(cfg, Learn(cfg, r, e.dpid, e.port, ip.src, e.frame.src, src.value), e, src.value, c);
    }
  }

  lemma StepIsTheSame(cfg: Config, n: Net, s: Step, late: Time)
    requires ConfigOk(cfg) && DaemonAgrees(cfg) && Consistent(cfg, n.router) && Enabled(cfg, n, s, late)
    ensures Enabled(cfg, n, StepInPython(s), late)
    ensures Apply(cfg, n, s) == Apply(cfg, n, StepInPython(s))
  {
    if s.Arrive? && s.via.None? {
      PacketInIsTheSame(cfg, n.router, PacketIn(s.dpid, s.port, s.frame, s.complete), s.c);
    }
  }

  /** A run, whatever the daemon did in it, is a run of the pure-Python firewall through the very same
      states: same verdicts, same tables, same messages, same frames sent. */
  lemma BackendsAreInterchangeable(cfg: Config, steps: seq<Step>, nets: seq<Net>, late: Time)
    requires ConfigOk(cfg) && DaemonAgrees(cfg) && IsRun(cfg, steps, nets, late)
    ensures IsRun(cfg, AllInPython(steps), nets, late)
  {
    forall i | 0 <= i < |steps| ensures Follows(cfg, nets[i], AllInPython(steps)[i], nets[i + 1], late) {
      assert Follows(cfg, nets[i], steps[i], nets[i + 1], late);
      StepIsTheSame(cfg, nets[i], steps[i], late);
    }
  }

  // --- Why the anti-spoofing check comes first -------------------------------------------------

  /** Three zones of ten addresses each, one core port per zone; only `a` may not talk to `c`. */
  function ZoneOfTen(ip: Addr): Option<ZoneName> {
    if ip < 10 then Some("a") else if ip < 20 then Some("b") else if ip < 30 then Some("c") else None
  }

  function MayTalk(src: ZoneName, dst: ZoneName): bool {
    !(src == "a" && dst == "c")
  }

  const THREE_ZONES := Config(
    (ip: Addr) => ZoneOfTen(ip),
    map["a" := Gateway(0, "00:00:00:00:00:0a"), "b" := Gateway(10, "00:00:00:00:00:0b"), "c" := Gateway(20, "00:00:00:00:00:0c")],
    (src, dst, isIcmp) => MayTalk(src, dst),
    (src: Addr, dst: Addr, protocol: nat) =>
      ZoneOfTen(src).Some? && ZoneOfTen(dst).Some? && MayTalk(ZoneOfTen(src).value, ZoneOfTen(dst).value),
    PortMaps(1, map[], map[], map[], map[1 := "a", 2 := "b", 3 := "c"]),
    map["a" := [1], "b" := [2], "c" := [3]])

  /** A packet that comes in at zone `a` with a source address of zone `b`, for a host of zone `c`. */
  const SPOOFED := PacketIn(1, 1, Frame("host", "gateway", Ip(IpPacket(11, 21, IPPROTO_TCP, 64, 1, 1, true, 0, Data([])))), true)

  const SPOOFED_FLOW := Flow(11, 21, IPPROTO_TCP, 1, 1)

  lemma ThreeZonesInvert()
    ensures MapsOk(THREE_ZONES.maps) && InverseOf(THREE_ZONES.zoneCorePorts, THREE_ZONES.maps.corePortZones)
  {
  }

  lemma ThreeZonesAreKnown()
    ensures forall z :: z in THREE_ZONES.gateways ==> THREE_ZONES.zoneOf(THREE_ZONES.gateways[z].ip) == Some(z)
    ensures forall ip :: THREE_ZONES.zoneOf(ip).Some? ==> THREE_ZONES.zoneOf(ip).value in THREE_ZONES.gateways
  {
  }

  lemma ThreeZonesAreOk()
    ensures ConfigOk(THREE_ZONES)
  {
    ThreeZonesInvert();
    ThreeZonesAreKnown();
  }

  lemma ThreeZonesAgree()
    ensures DaemonAgrees(THREE_ZONES)
  {
  }

  lemma TheTwoAnswers()
    ensures FirewallSays(THREE_ZONES, CppDaemon, "a", "c", SPOOFED.frame.payload.ip)
    ensures !FirewallSays(THREE_ZONES, PythonFallback, "a", "c", SPOOFED.frame.payload.ip)
    ensures THREE_ZONES.zoneOf(SPOOFED.frame.payload.ip.dst) == Some("c") && !IsGateway(THREE_ZONES, SPOOFED.frame.payload.ip.dst)
  {
  }

  lemma SpoofedIsTracked()
    ensures TrackedOf(SPOOFED.frame.payload.ip) == Some(TrackedPacket(SPOOFED_FLOW, true, true))
    ensures !SourceValid(THREE_ZONES, SPOOFED.frame.payload.ip.src, "a")
  {
  }

  /** From behind the anti-spoofing check, the table of connections is what the firewall's answer makes it. */
  lemma AnswerDecidesTheTable(cfg: Config, r: Router, e: PacketIn, src: ZoneName, dst: ZoneName, c: Readings)
    requires ConfigOk(cfg) && e.frame.payload.Ip? && ZoneOfPort(cfg, e.dpid, e.port) == Some(src) && r.outbox == []
    requires cfg.zoneOf(e.frame.payload.ip.dst) == Some(dst) && dst != src && !IsGateway(cfg, e.frame.payload.ip.dst)
    ensures var ip := e.frame.payload.ip;
            HandleHonestIp(cfg, r, e, src, c).conns
            == AfterCheck(r.conns, IDLE_TIMEOUT, FirewallSays(cfg, c.backend, src, dst, ip), TrackedOf(ip), c.t, c.s)
  {
    AnswerDecidesAcross(cfg, r, e, src, dst, c);
  }

  lemma AnswerDecidesAcross(cfg: Config, r: Router, e: PacketIn, src: ZoneName, dst: ZoneName, c: Readings)
    requires ConfigOk(cfg) && e.frame.payload.Ip? && ZoneOfPort(cfg, e.dpid, e.port) == Some(src) && r.outbox == [] && dst in cfg.gateways
    ensures var ip := e.frame.payload.ip;
            HandleCrossZoneIp(cfg, r, e, src, dst, c).conns
            == AfterCheck(r.conns, IDLE_TIMEOUT, FirewallSays(cfg, c.backend, src, dst, ip), TrackedOf(ip), c.t, c.s)
  {
    var ip := e.frame.payload.ip;
    var checked := CheckConnection(cfg, r, ip, FirewallSays(cfg, c.backend, src, dst, ip), c);
    if checked.log[|checked.log| - 1].verdict != Drop {
      RouteEffects(cfg, checked, Route(cfg, checked, e, dst, c.u), e, dst, c.u);
    }
  }

  lemma SpoofedIsFromA()
    ensures ConfigOk(THREE_ZONES) && ZoneOfPort(THREE_ZONES, SPOOFED.dpid, SPOOFED.port) == Some("a")
  {
    ThreeZonesAreOk();
  }

  /** Behind the check, the firewall's answer would decide whether the packet gets an entry. */
  lemma SpoofedFlowIsTracked(r: Router, c: Readings)
    requires r.conns == map[] && r.outbox == []
    ensures ConfigOk(THREE_ZONES) && ZoneOfPort(THREE_ZONES, SPOOFED.dpid, SPOOFED.port) == Some("a")
    ensures HandleHonestIp(THREE_ZONES, r, SPOOFED, "a", c).conns == if c.backend.CppDaemon? then map[SPOOFED_FLOW := c.t] else map[]
  {
    SpoofedIsFromA();
    TheTwoAnswers();
    SpoofedIsTracked();
    AnswerDecidesTheTable(THREE_ZONES, r, SPOOFED, "a", "c", c);
  }

  lemma TheCheckDropsIt(r: Router, c: Readings)
    ensures ConfigOk(THREE_ZONES) && HandleIp(THREE_ZONES, r, SPOOFED, c) == r
  {
    SpoofedIsFromA();
    SpoofedIsTracked();
  }

  /** The two firewalls agree on honest packets only. On a sound configuration, this spoofed packet is
      refused by the one and let through by the other; handled from behind the anti-spoofing check it
      would enter the table of connections or not, depending on which of them answers. The check drops
      it before either is asked. */
  lemma SpoofCheckIsNeeded(r: Router, c: Readings)
    requires r.conns == map[] && r.outbox == []
    ensures ConfigOk(THREE_ZONES) && DaemonAgrees(THREE_ZONES) && ZoneOfPort(THREE_ZONES, SPOOFED.dpid, SPOOFED.port) == Some("a")
    ensures HandleHonestIp(THREE_ZONES, r, SPOOFED, "a", c.(backend := CppDaemon)).conns == map[SPOOFED_FLOW := c.t]
    ensures HandleHonestIp(THREE_ZONES, r, SPOOFED, "a", c.(backend := PythonFallback)).conns == map[]
    ensures HandleIp(THREE_ZONES, r, SPOOFED, c) == r
  {
    SpoofedFlowIsTracked(r, c.(backend := CppDaemon));
    SpoofedFlowIsTracked(r, c.(backend := PythonFallback));
    TheCheckDropsIt(r, c);
    ThreeZonesAgree();
  }
}
