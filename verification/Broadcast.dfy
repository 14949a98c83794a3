/** Flooding a broadcast within its zone: over the whole star of switches, exactly the other hosts of
    the sender's zone get it, each exactly once. */
module Broadcast {
  import opened Common
  import opened Policy
  import opened OpenFlow
  import opened ConnTrack
  import opened RouterModel
  import opened RouterInv
  import opened RouterEffects
  import opened DataPlane
  import opened Isolation
  import opened Layout
  import opened Wiring

  // --- One switch ------------------------------------------------------------------------------

  /** A broadcast to the hosts of the sender's zone: neither IP nor LLDP, and no ARP request or answer for
      a gateway. The ARP request of one host for another is one. */
  predicate IsBroadcast(cfg: Config, f: Frame) {
    && IsMulticast(f.dst)
    && (f.payload.OtherType? || (f.payload.Arp? && !(IsGateway(cfg, f.payload.protodst) && f.payload.opcode in {1, 2})))
  }

  /** A host of the zone may send it: ARP only in the name of an address of the zone that is not its
      gateway's. */
  predicate SpeaksFor(cfg: Config, f: Frame, zone: ZoneName) {
    f.payload.OtherType? || (f.payload.Arp? && SourceValid(cfg, f.payload.protosrc, zone))
  }

  /** The controller takes it seriously where it comes in. */
  predicate IsHeard(cfg: Config, e: PacketIn) {
    || IsLeafUplink(cfg, e.dpid, e.port) || e.frame.payload.OtherType?
    || (ZoneOfPort(cfg, e.dpid, e.port).Some? && SpeaksFor(cfg, e.frame, ZoneOfPort(cfg, e.dpid, e.port).value))
  }

  /** In any state, wherever it arrives, the controller floods a broadcast it takes seriously, and does
      nothing else with it but learn where it came from. */
  lemma BroadcastsAreFlooded(cfg: Config, r: Router, e: PacketIn, c: Readings)
    requires ConfigOk(cfg) && Consistent(cfg, r) && e.complete && IsBroadcast(cfg, e.frame)
    ensures var r' := HandlePacketIn(cfg, r, e, c);
            && r' == r.(outbox := r'.outbox, macTable := r'.macTable, ipToLoc := r'.ipToLoc)
            && r'.outbox == r.outbox + if IsHeard(cfg, e) then FloodMsgs(cfg, e) else []
  {
    if IsLeafUplink(cfg, e.dpid, e.port) {
      TransitIsFlooded(cfg, r, e);
    } else if e.frame.payload.OtherType? {
      FloodingSends(cfg, r, e);
    } else if IsHeard(cfg, e) {
      ArpIsFlooded(cfg, r, e, ZoneOfPort(cfg, e.dpid, e.port).value);
    }
  }

  lemma TransitIsFlooded(cfg: Config, r: Router, e: PacketIn)
    requires IsMulticast(e.frame.dst)
    ensures var r' := HandleTransit(cfg, r, e);
            r' == r.(outbox := r.outbox + FloodMsgs(cfg, e), macTable := r'.macTable)
  {
    FloodingSends(cfg, LearnMac(r, e.dpid, e.frame.src, e.port), e);
  }

  lemma ArpIsFlooded(cfg: Config, r: Router, e: PacketIn, zone: ZoneName)
    requires ConfigOk(cfg) && Consistent(cfg, r) && e.frame.payload.Arp? && IsBroadcast(cfg, e.frame)
    requires ZoneOfPort(cfg, e.dpid, e.port) == Some(zone) && SourceValid(cfg, e.frame.payload.protosrc, zone)
    ensures var r' := HandleArp(cfg, r, e);
            r' == r.(outbox := r.outbox + FloodMsgs(cfg, e), macTable := r'.macTable, ipToLoc := r'.ipToLoc)
  {
    var a := e.frame.payload;
    var learned := Learn(cfg, r, e.dpid, e.port, a.protosrc, a.hwsrc, zone);
    CorePortIsInTheZone(cfg, e.dpid, e.port);
    FloodingSends(cfg, learned, e);
    assert HandleArp(cfg, r, e) == HandleHonestArp(cfg, learned, e, zone) == FloodInZone(cfg, learned, e);
  }

  /** No rule ever takes a broadcast before the controller sees it. */
  lemma BroadcastsMeetNoRule(cfg: Config, steps: seq<Step>, nets: seq<Net>, late: Time, i: nat, dpid: Dpid, m: Match, f: Frame, port: Port)
    requires InRun(cfg, steps, nets, late, i) && IsBroadcast(cfg, f)
    ensures !Hits(nets[i], dpid, m, f, port)
  {
    RunKeepsInv(cfg, steps, nets, late, i);
    if m in TableOf(nets[i], dpid) {
      var rule := TableOf(nets[i], dpid)[m];
      assert RuleOk(cfg, nets[i].router.log, rule.installed, dpid, m, rule.hard, rule.actions);
    }
  }

  /** How many copies of a frame that came in through `inPort` the messages put on `port`. Flooding
      means every port but the one the frame came in through (section 5.2.3). */
  function Copies(msgs: seq<Msg>, inPort: Port, port: Port): nat {
    if msgs == [] then 0
    else
      (match msgs[0]
       case PacketOut(_, _, To(p)) => if p == port then 1 else 0
       case PacketOut(_, _, Flood) => if port != inPort then 1 else 0
       case FlowMod(_, _, _, _, _, _) => 0)
      + Copies(msgs[1..], inPort, port)
  }

  lemma {:induction false} CopiesOfOutAll(dpid: Dpid, f: Frame, ports: seq<Port>, except: Option<Port>, inPort: Port, port: Port)
    requires forall i, j :: 0 <= i < j < |ports| ==> ports[i] != ports[j]
    ensures Copies(OutAll(dpid, f, ports, except), inPort, port) == if port in ports && except != Some(port) then 1 else 0
  {
    if ports != [] {
      var rest := OutAll(dpid, f, ports[1..], except);
      CopiesOfOutAll(dpid, f, ports[1..], except, inPort, port);
      if except != Some(ports[0]) {
        assert ([PacketOut(dpid, f, To(ports[0]))] + rest)[1..] == rest;
      } else {
        assert [] + rest == rest;
      }
    }
  }

  /** One switch on the way of a frame: where it came in and one port it leaves through. */
  datatype Hop = Hop(switch: string, inPort: Port, outPort: Port)

  function Entering(net: Network, f: Frame, hop: Hop): PacketIn
    requires hop.switch in net.switches
  {
    PacketIn(DpidOf(net, hop.switch), hop.inPort, f, true)
  }

  /** The frame is sent from this switch through the hop's port, how often. */
  function CopiesSent(cfg: Config, net: Network, f: Frame, hop: Hop): nat
    requires hop.switch in net.switches
  {
    var e := Entering(net, f, hop);
    Copies(if IsHeard(cfg, e) then FloodMsgs(cfg, e) else [], hop.inPort, hop.outPort)
  }

  lemma LeafSends(cfg: Config, net: Network, plan: Plan, f: Frame, hop: Hop)
    requires Wired(cfg, net, plan) && hop.switch in net.switches && hop.switch != net.core
    ensures CopiesSent(cfg, net, f, hop) == if hop.outPort != hop.inPort && IsHeard(cfg, Entering(net, f, hop)) then 1 else 0
  {
    var msg := PacketOut(DpidOf(net, hop.switch), f, Flood);
    assert [msg][1..] == [];
    assert Copies([], hop.inPort, hop.outPort) == 0;
  }

  lemma CoreSends(cfg: Config, net: Network, plan: Plan, f: Frame, hop: Hop)
    requires Wired(cfg, net, plan) && hop.switch == net.core && hop.switch in net.switches
    ensures CopiesSent(cfg, net, f, hop)
            == if IsHeard(cfg, Entering(net, f, hop)) && hop.outPort != hop.inPort && Get(cfg.maps.corePortZones, hop.inPort).Some?
                  && Get(cfg.maps.corePortZones, hop.outPort) == Get(cfg.maps.corePortZones, hop.inPort) then 1 else 0
  {
    if hop.inPort in cfg.maps.corePortZones {
      CoreFloodsTheZone(cfg, net, plan, f, hop);
    }
  }

  lemma CoreFloodsTheZone(cfg: Config, net: Network, plan: Plan, f: Frame, hop: Hop)
    requires Wired(cfg, net, plan) && hop.switch == net.core && hop.inPort in cfg.maps.corePortZones && hop.switch in net.switches
    ensures Copies(FloodMsgs(cfg, Entering(net, f, hop)), hop.inPort, hop.outPort)
            == if hop.outPort != hop.inPort && Get(cfg.maps.corePortZones, hop.outPort) == Get(cfg.maps.corePortZones, hop.inPort) then 1 else 0
  {
    var zone := cfg.maps.corePortZones[hop.inPort];
    ZonePortsAreDistinct(cfg, net, plan, zone, hop.outPort);
    CopiesOfOutAll(DpidOf(net, net.core), f, PortsOfZone(cfg, zone), Some(hop.inPort), hop.inPort, hop.outPort);
  }

  lemma ZonePortsAreDistinct(cfg: Config, net: Network, plan: Plan, zone: ZoneName, port: Port)
    requires Wired(cfg, net, plan)
    ensures port in PortsOfZone(cfg, zone) <==> Get(cfg.maps.corePortZones, port) == Some(zone)
    ensures var ports := PortsOfZone(cfg, zone);
            forall i, j :: 0 <= i < j < |ports| ==> ports[i] != ports[j]
  {
  }

  // --- Paths -----------------------------------------------------------------------------------

  /** What is plugged into the port. */
  predicate PluggedInto(net: Network, plug: Plug, switch: string, port: Port) {
    IsPlug(net, plug) && Place(net, plug) == (switch, Some(port))
  }

  /** A leaf's uplink cable, in either direction. */
  predicate Cable(net: Network, a: Hop, b: Hop, leaf: string) {
    || (PluggedInto(net, LeafPlug(leaf), a.switch, a.outPort) && PluggedInto(net, CorePlug(leaf), b.switch, b.inPort))
    || (PluggedInto(net, CorePlug(leaf), a.switch, a.outPort) && PluggedInto(net, LeafPlug(leaf), b.switch, b.inPort))
  }

  ghost predicate Linked(net: Network, a: Hop, b: Hop) {
    exists leaf :: Cable(net, a, b, leaf)
  }

  /** A way a copy of the host's frame takes: it is sent at every hop and carried from hop to hop. */
  ghost predicate Trail(cfg: Config, net: Network, f: Frame, host: string, hops: seq<Hop>) {
    && host in net.hosts && hops != []
    && PluggedInto(net, HostPlug(host), hops[0].switch, hops[0].inPort)
    && (forall k :: 0 <= k < |hops| ==> hops[k].switch in net.switches && CopiesSent(cfg, net, f, hops[k]) > 0)
    && (forall k :: 0 <= k < |hops| - 1 ==> Linked(net, hops[k], hops[k + 1]))
  }

  /** A way that ends at another host's port. */
  ghost predicate Delivers(cfg: Config, net: Network, f: Frame, from: string, hops: seq<Hop>, to: string) {
    Trail(cfg, net, f, from, hops) && PluggedInto(net, HostPlug(to), hops[|hops| - 1].switch, hops[|hops| - 1].outPort)
  }

  /** The number of copies that arrive by a given way. */
  function Multiplicity(cfg: Config, net: Network, f: Frame, hops: seq<Hop>): nat
    requires forall k :: 0 <= k < |hops| ==> hops[k].switch in net.switches
  {
    if hops == [] then 1 else CopiesSent(cfg, net, f, hops[0]) * Multiplicity(cfg, net, f, hops[1..])
  }

  lemma AtMostOneCopy(cfg: Config, net: Network, plan: Plan, f: Frame, hop: Hop)
    requires Wired(cfg, net, plan) && hop.switch in net.switches
    ensures CopiesSent(cfg, net, f, hop) <= 1
  {
    if hop.switch == net.core {
      CoreSends(cfg, net, plan, f, hop);
    } else {
      LeafSends(cfg, net, plan, f, hop);
    }
  }

  lemma {:induction false} OneCopyPerWay(cfg: Config, net: Network, plan: Plan, f: Frame, hops: seq<Hop>)
    requires Wired(cfg, net, plan)
    requires forall k :: 0 <= k < |hops| ==> hops[k].switch in net.switches && CopiesSent(cfg, net, f, hops[k]) > 0
    ensures Multiplicity(cfg, net, f, hops) == 1
  {
    if hops != [] {
      AtMostOneCopy(cfg, net, plan, f, hops[0]);
      OneCopyPerWay(cfg, net, plan, f, hops[1..]);
    }
  }

  // --- The way from host to host ---------------------------------------------------------------

  function PortOf(net: Network, host: string): Port
    requires Star(net) && host in net.hosts
  {
    PlugPort(net, HostPlug(host))
  }

  function UpPort(net: Network, leaf: string): Port
    requires Star(net) && leaf in net.uplinks
  {
    PlugPort(net, LeafPlug(leaf))
  }

  function DownPort(net: Network, leaf: string): Port
    requires Star(net) && leaf in net.uplinks
  {
    PlugPort(net, CorePlug(leaf))
  }

  /** Up from the sender's switch if it is a leaf, across the core, down to the receiver's. */
  function Way(net: Network, from: string, to: string): seq<Hop>
    requires Star(net) && from in net.hosts && to in net.hosts
  {
    var a, b, p, q := net.hosts[from].switch, net.hosts[to].switch, PortOf(net, from), PortOf(net, to);
    if a == b then [Hop(a, p, q)]
    else if a == net.core then [Hop(a, p, DownPort(net, b)), Hop(b, UpPort(net, b), q)]
    else if b == net.core then [Hop(a, p, UpPort(net, a)), Hop(b, DownPort(net, a), q)]
    else [Hop(a, p, UpPort(net, a)), Hop(net.core, DownPort(net, a), DownPort(net, b)), Hop(b, UpPort(net, b), q)]
  }

  // --- Exactness -------------------------------------------------------------------------------

  lemma NextFromLeaf(net: Network, a: Hop, b: Hop)
    requires Star(net) && Linked(net, a, b) && a.switch in net.uplinks
    ensures a.outPort == UpPort(net, a.switch) && b.switch == net.core && b.inPort == DownPort(net, a.switch)
  {
  }

  lemma NextFromCore(net: Network, a: Hop, b: Hop)
    requires Star(net) && Linked(net, a, b) && a.switch == net.core
    ensures b.switch in net.uplinks && a.outPort == DownPort(net, b.switch) && b.inPort == UpPort(net, b.switch)
  {
  }

  /** A frame that came down an uplink goes no further than the leaf's own ports. */
  lemma LeavesEndTheTrail(cfg: Config, net: Network, plan: Plan, f: Frame, a: Hop, b: Hop)
    requires Wired(cfg, net, plan) && a.switch in net.uplinks && a.inPort == UpPort(net, a.switch)
    requires CopiesSent(cfg, net, f, a) > 0
    ensures !Linked(net, a, b)
  {
    LeafSends(cfg, net, plan, f, a);
    if Linked(net, a, b) {
      NextFromLeaf(net, a, b);
    }
  }

  /** Flooding ends within three switch hops. */
  lemma TrailsAreShort(cfg: Config, net: Network, plan: Plan, f: Frame, host: string, hops: seq<Hop>)
    requires Wired(cfg, net, plan) && Trail(cfg, net, f, host, hops)
    ensures |hops| <= 3
    ensures hops[0].switch == net.core ==> |hops| <= 2
  {
    if hops[0].switch == net.core {
      if |hops| > 2 {
        NextFromCore(net, hops[0], hops[1]);
        LeavesEndTheTrail(cfg, net, plan, f, hops[1], hops[2]);
      }
    } else if |hops| > 3 {
      NextFromLeaf(net, hops[0], hops[1]);
      NextFromCore(net, hops[1], hops[2]);
      LeavesEndTheTrail(cfg, net, plan, f, hops[2], hops[3]);
    }
  }

  lemma DeliveriesFromTheCore(cfg: Config, net: Network, plan: Plan, f: Frame, from: string, hops: seq<Hop>, to: string)
    requires Wired(cfg, net, plan) && Delivers(cfg, net, f, from, hops, to) && hops[0].switch == net.core
    ensures from in net.hosts && to in net.hosts && from != to && net.hosts[from].zone == net.hosts[to].zone
    ensures hops == Way(net, from, to)
  {
    var last := hops[|hops| - 1];
    TrailsAreShort(cfg, net, plan, f, from, hops);
    CoreSends(cfg, net, plan, f, hops[0]);
    if |hops| == 2 {
      NextFromCore(net, hops[0], hops[1]);
    }
  }

  lemma DeliveriesFromALeaf(cfg: Config, net: Network, plan: Plan, f: Frame, from: string, hops: seq<Hop>, to: string)
    requires Wired(cfg, net, plan) && Delivers(cfg, net, f, from, hops, to) && hops[0].switch != net.core
    ensures from in net.hosts && to in net.hosts && from != to && net.hosts[from].zone == net.hosts[to].zone
    ensures hops == Way(net, from, to)
  {
    TrailsAreShort(cfg, net, plan, f, from, hops);
    LeafSends(cfg, net, plan, f, hops[0]);
    if |hops| == 2 {
      DeliveriesUp(cfg, net, plan, f, from, hops, to);
    } else if |hops| == 3 {
      DeliveriesUpAndDown(cfg, net, plan, f, from, hops, to);
    }
  }

  lemma DeliveriesUp(cfg: Config, net: Network, plan: Plan, f: Frame, from: string, hops: seq<Hop>, to: string)
    requires Wired(cfg, net, plan) && Delivers(cfg, net, f, from, hops, to) && hops[0].switch != net.core && |hops| == 2
    ensures from in net.hosts && to in net.hosts && from != to && net.hosts[from].zone == net.hosts[to].zone
    ensures hops == Way(net, from, to)
  {
    NextFromLeaf(net, hops[0], hops[1]);
    CoreSends(cfg, net, plan, f, hops[1]);
  }

  lemma DeliveriesUpAndDown(cfg: Config, net: Network, plan: Plan, f: Frame, from: string, hops: seq<Hop>, to: string)
    requires Wired(cfg, net, plan) && Delivers(cfg, net, f, from, hops, to) && hops[0].switch != net.core && |hops| == 3
    ensures from in net.hosts && to in net.hosts && from != to && net.hosts[from].zone == net.hosts[to].zone
    ensures hops == Way(net, from, to)
  {
    NextFromLeaf(net, hops[0], hops[1]);
    CoreSends(cfg, net, plan, f, hops[1]);
    NextFromCore(net, hops[1], hops[2]);
  }

  /** Every delivery goes by the one way there is, and only within the sender's zone. */
  lemma DeliveriesGoTheWay(cfg: Config, net: Network, plan: Plan, f: Frame, from: string, hops: seq<Hop>, to: string)
    requires Wired(cfg, net, plan) && Delivers(cfg, net, f, from, hops, to)
    ensures from in net.hosts && to in net.hosts && from != to && net.hosts[from].zone == net.hosts[to].zone
    ensures hops == Way(net, from, to)
  {
    if hops[0].switch == net.core {
      DeliveriesFromTheCore(cfg, net, plan, f, from, hops, to);
    } else {
      DeliveriesFromALeaf(cfg, net, plan, f, from, hops, to);
    }
  }

  lemma UpLinked(cfg: Config, net: Network, plan: Plan, leaf: string, p: Port, q: Port)
    requires Wired(cfg, net, plan) && leaf in net.uplinks
    ensures Linked(net, Hop(leaf, p, UpPort(net, leaf)), Hop(net.core, DownPort(net, leaf), q))
    ensures Linked(net, Hop(net.core, p, DownPort(net, leaf)), Hop(leaf, UpPort(net, leaf), q))
  {
    assert Cable(net, Hop(leaf, p, UpPort(net, leaf)), Hop(net.core, DownPort(net, leaf), q), leaf);
    assert Cable(net, Hop(net.core, p, DownPort(net, leaf)), Hop(leaf, UpPort(net, leaf), q), leaf);
  }

  lemma UpIsSent(cfg: Config, net: Network, plan: Plan, f: Frame, host: string)
    requires Wired(cfg, net, plan) && host in net.hosts && net.hosts[host].switch in net.uplinks && SpeaksFor(cfg, f, net.hosts[host].zone)
    ensures CopiesSent(cfg, net, f, Hop(net.hosts[host].switch, PortOf(net, host), UpPort(net, net.hosts[host].switch))) == 1
    ensures CopiesSent(cfg, net, f, Hop(net.hosts[host].switch, UpPort(net, net.hosts[host].switch), PortOf(net, host))) == 1
  {
    var a := net.hosts[host].switch;
    LeafSends(cfg, net, plan, f, Hop(a, PortOf(net, host), UpPort(net, a)));
    LeafSends(cfg, net, plan, f, Hop(a, UpPort(net, a), PortOf(net, host)));
  }

  lemma AcrossIsSent(cfg: Config, net: Network, plan: Plan, f: Frame, p: Port, q: Port, zone: ZoneName)
    requires Wired(cfg, net, plan) && p != q && SpeaksFor(cfg, f, zone)
    requires Get(cfg.maps.corePortZones, p) == Get(cfg.maps.corePortZones, q) == Some(zone)
    ensures CopiesSent(cfg, net, f, Hop(net.core, p, q)) == 1
  {
    CoreSends(cfg, net, plan, f, Hop(net.core, p, q));
  }

  lemma OneHopDelivers(cfg: Config, net: Network, plan: Plan, f: Frame, from: string, to: string)
    requires Wired(cfg, net, plan) && from in net.hosts && to in net.hosts && SpeaksFor(cfg, f, net.hosts[from].zone)
    requires from != to && net.hosts[from].zone == net.hosts[to].zone && net.hosts[from].switch == net.hosts[to].switch
    ensures Delivers(cfg, net, f, from, Way(net, from, to), to)
  {
    if net.hosts[from].switch == net.core {
      AcrossIsSent(cfg, net, plan, f, PortOf(net, from), PortOf(net, to), net.hosts[from].zone);
    } else {
      LeafSends(cfg, net, plan, f, Hop(net.hosts[from].switch, PortOf(net, from), PortOf(net, to)));
    }
  }

  /** Across the core, between the sides of two hosts that are not on the same switch. */
  lemma AcrossFromHostToHost(cfg: Config, net: Network, plan: Plan, f: Frame, from: string, to: string)
    requires Wired(cfg, net, plan) && from in net.hosts && to in net.hosts && SpeaksFor(cfg, f, net.hosts[from].zone) && net.hosts[from].zone == net.hosts[to].zone
    requires net.hosts[from].switch != net.hosts[to].switch
    ensures CopiesSent(cfg, net, f, Hop(net.core, CoreSide(net, from), CoreSide(net, to))) == 1
  {
    CoreSidesDiffer(net, from, to);
    CoreSideHasTheZone(cfg, net, plan, from);
    CoreSideHasTheZone(cfg, net, plan, to);
    AcrossIsSent(cfg, net, plan, f, CoreSide(net, from), CoreSide(net, to), net.hosts[from].zone);
  }

  lemma CoreSidesDiffer(net: Network, from: string, to: string)
    requires Star(net) && from in net.hosts && to in net.hosts && net.hosts[from].switch != net.hosts[to].switch
    ensures CoreSide(net, from) != CoreSide(net, to)
  {
    PlugsApart(net, CorePlugOf(net, from), CorePlugOf(net, to));
  }

  function CorePlugOf(net: Network, host: string): Plug
    requires host in net.hosts
  {
    if net.hosts[host].switch == net.core then HostPlug(host) else CorePlug(net.hosts[host].switch)
  }

  lemma CoreSideHasTheZone(cfg: Config, net: Network, plan: Plan, host: string)
    requires Wired(cfg, net, plan) && host in net.hosts
    ensures Get(cfg.maps.corePortZones, CoreSide(net, host)) == Some(net.hosts[host].zone)
  {
  }

  lemma TwoHopsDeliver(cfg: Config, net: Network, f: Frame, from: string, first: Hop, second: Hop, to: string)
    requires from in net.hosts && PluggedInto(net, HostPlug(from), first.switch, first.inPort)
    requires first.switch in net.switches && second.switch in net.switches
    requires CopiesSent(cfg, net, f, first) > 0 && CopiesSent(cfg, net, f, second) > 0 && Linked(net, first, second)
    requires PluggedInto(net, HostPlug(to), second.switch, second.outPort)
    ensures Delivers(cfg, net, f, from, [first, second], to)
  {
  }

  lemma UpDelivers(cfg: Config, net: Network, plan: Plan, f: Frame, from: string, to: string)
    requires Wired(cfg, net, plan) && from in net.hosts && to in net.hosts && SpeaksFor(cfg, f, net.hosts[from].zone) && net.hosts[from].zone == net.hosts[to].zone
    requires net.hosts[from].switch != net.core && net.hosts[to].switch == net.core
    ensures Delivers(cfg, net, f, from, Way(net, from, to), to)
  {
    var a, b := net.hosts[from].switch, net.hosts[to].switch;
    AcrossFromHostToHost(cfg, net, plan, f, from, to);
    UpIsSent(cfg, net, plan, f, from);
    UpLinked(cfg, net, plan, a, PortOf(net, from), CoreSide(net, to));
    TwoHopsDeliver(cfg, net, f, from, Hop(a, PortOf(net, from), UpPort(net, a)), Hop(b, DownPort(net, a), PortOf(net, to)), to);
  }

  lemma DownDelivers(cfg: Config, net: Network, plan: Plan, f: Frame, from: string, to: string)
    requires Wired(cfg, net, plan) && from in net.hosts && to in net.hosts && SpeaksFor(cfg, f, net.hosts[from].zone) && net.hosts[from].zone == net.hosts[to].zone
    requires net.hosts[from].switch == net.core && net.hosts[to].switch != net.core
    ensures Delivers(cfg, net, f, from, Way(net, from, to), to)
  {
    var a, b := net.hosts[from].switch, net.hosts[to].switch;
    AcrossFromHostToHost(cfg, net, plan, f, from, to);
    UpIsSent(cfg, net, plan, f, to);
    UpLinked(cfg, net, plan, b, CoreSide(net, from), PortOf(net, to));
    TwoHopsDeliver(cfg, net, f, from, Hop(a, PortOf(net, from), DownPort(net, b)), Hop(b, UpPort(net, b), PortOf(net, to)), to);
  }

  lemma ThreeHopsDeliver(cfg: Config, net: Network, f: Frame, from: string, up: Hop, across: Hop, down: Hop, to: string)
    requires from in net.hosts && PluggedInto(net, HostPlug(from), up.switch, up.inPort)
    requires up.switch in net.switches && across.switch in net.switches && down.switch in net.switches
    requires CopiesSent(cfg, net, f, up) > 0 && CopiesSent(cfg, net, f, across) > 0 && CopiesSent(cfg, net, f, down) > 0
    requires Linked(net, up, across) && Linked(net, across, down)
    requires PluggedInto(net, HostPlug(to), down.switch, down.outPort)
    ensures Delivers(cfg, net, f, from, [up, across, down], to)
  {
  }

  lemma UpAndDownDelivers(cfg: Config, net: Network, plan: Plan, f: Frame, from: string, to: string)
    requires Wired(cfg, net, plan) && from in net.hosts && to in net.hosts && SpeaksFor(cfg, f, net.hosts[from].zone) && net.hosts[from].zone == net.hosts[to].zone
    requires net.hosts[from].switch != net.core && net.hosts[to].switch != net.core && net.hosts[from].switch != net.hosts[to].switch
    ensures Delivers(cfg, net, f, from, Way(net, from, to), to)
  {
    var a, b := net.hosts[from].switch, net.hosts[to].switch;
    AcrossFromHostToHost(cfg, net, plan, f, from, to);
    UpIsSent(cfg, net, plan, f, from);
    UpIsSent(cfg, net, plan, f, to);
    UpLinked(cfg, net, plan, a, PortOf(net, from), CoreSide(net, to));
    UpLinked(cfg, net, plan, b, CoreSide(net, from), PortOf(net, to));
    ThreeHopsDeliver(cfg, net, f, from, Hop(a, PortOf(net, from), UpPort(net, a)),
                     Hop(net.core, DownPort(net, a), DownPort(net, b)), Hop(b, UpPort(net, b), PortOf(net, to)), to);
  }

  /** And that way does deliver. */
  lemma TheWayDelivers(cfg: Config, net: Network, plan: Plan, f: Frame, from: string, to: string)
    requires Wired(cfg, net, plan) && from in net.hosts && to in net.hosts && SpeaksFor(cfg, f, net.hosts[from].zone)
    requires from != to && net.hosts[from].zone == net.hosts[to].zone
    ensures Delivers(cfg, net, f, from, Way(net, from, to), to)
  {
    var a, b := net.hosts[from].switch, net.hosts[to].switch;
    if a == b {
      OneHopDelivers(cfg, net, plan, f, from, to);
    } else if b == net.core {
      UpDelivers(cfg, net, plan, f, from, to);
    } else if a == net.core {
      DownDelivers(cfg, net, plan, f, from, to);
    } else {
      UpAndDownDelivers(cfg, net, plan, f, from, to);
    }
  }

  lemma PortsHaveZones(cfg: Config, net: Network, plan: Plan, switch: string)
    requires Wired(cfg, net, plan) && switch in net.switches
    ensures switch == net.core <==> DpidOf(net, switch) == cfg.maps.coreDpid
    ensures switch != net.core ==> forall port :: ZoneOfPort(cfg, DpidOf(net, switch), port) == net.switches[switch].zone
  {
  }

  lemma OneHopStaysInTheZone(cfg: Config, net: Network, plan: Plan, f: Frame, hop: Hop)
    requires Wired(cfg, net, plan) && hop.switch in net.switches && CopiesSent(cfg, net, f, hop) > 0
    ensures ZoneOfPort(cfg, DpidOf(net, hop.switch), hop.outPort) == ZoneOfPort(cfg, DpidOf(net, hop.switch), hop.inPort)
  {
    PortsHaveZones(cfg, net, plan, hop.switch);
    if hop.switch == net.core {
      CoreSends(cfg, net, plan, f, hop);
    }
  }

  lemma CablesJoinOneZone(cfg: Config, net: Network, plan: Plan, a: Hop, b: Hop)
    requires Wired(cfg, net, plan) && Linked(net, a, b) && a.switch in net.switches && b.switch in net.switches
    ensures ZoneOfPort(cfg, DpidOf(net, b.switch), b.inPort) == ZoneOfPort(cfg, DpidOf(net, a.switch), a.outPort)
  {
  }

  lemma HostsEnterInZone(cfg: Config, net: Network, plan: Plan, host: string, switch: string, port: Port)
    requires Wired(cfg, net, plan) && PluggedInto(net, HostPlug(host), switch, port) && switch in net.switches
    ensures host in net.hosts && ZoneOfPort(cfg, DpidOf(net, switch), port) == Some(net.hosts[host].zone)
  {
  }

  lemma NextHopStaysInTheZone(cfg: Config, net: Network, plan: Plan, f: Frame, a: Hop, b: Hop)
    requires Wired(cfg, net, plan) && Linked(net, a, b) && a.switch in net.switches && b.switch in net.switches && CopiesSent(cfg, net, f, a) > 0
    ensures ZoneOfPort(cfg, DpidOf(net, b.switch), b.inPort) == ZoneOfPort(cfg, DpidOf(net, a.switch), a.inPort)
  {
    OneHopStaysInTheZone(cfg, net, plan, f, a);
    CablesJoinOneZone(cfg, net, plan, a, b);
  }

  predicate EntersIn(cfg: Config, net: Network, hop: Hop, zone: ZoneName) {
    hop.switch in net.switches && ZoneOfPort(cfg, DpidOf(net, hop.switch), hop.inPort) == Some(zone)
  }

  lemma {:induction false} EntersInThroughout(cfg: Config, net: Network, hops: seq<Hop>, zone: ZoneName, k: nat)
    requires k < |hops| && EntersIn(cfg, net, hops[0], zone)
    requires forall j :: 0 <= j < k && EntersIn(cfg, net, hops[j], zone) ==> EntersIn(cfg, net, hops[j + 1], zone)
    ensures EntersIn(cfg, net, hops[k], zone)
  {
    if k > 0 {
      EntersInThroughout(cfg, net, hops, zone, k - 1);
    }
  }

  /** No copy of a host's broadcast ever leaves any switch through a port outside the host's zone, whether
      anything is plugged in there or not. */
  lemma TrailsStayInTheZone(cfg: Config, net: Network, plan: Plan, f: Frame, host: string, hops: seq<Hop>, k: nat)
    requires Wired(cfg, net, plan) && Trail(cfg, net, f, host, hops) && k < |hops|
    ensures ZoneOfPort(cfg, DpidOf(net, hops[k].switch), hops[k].outPort) == Some(net.hosts[host].zone)
  {
    var zone := net.hosts[host].zone;
    HostsEnterInZone(cfg, net, plan, host, hops[0].switch, hops[0].inPort);
    forall j | 0 <= j < k && EntersIn(cfg, net, hops[j], zone) ensures EntersIn(cfg, net, hops[j + 1], zone) {
      NextHopStaysInTheZone(cfg, net, plan, f, hops[j], hops[j + 1]);
    }
    EntersInThroughout(cfg, net, hops, zone, k);
    OneHopStaysInTheZone(cfg, net, plan, f, hops[k]);
  }

  /** Only what its host may send gets anywhere. */
  lemma DeliveriesAreHonest(cfg: Config, net: Network, plan: Plan, f: Frame, from: string, hops: seq<Hop>, to: string)
    requires Wired(cfg, net, plan) && Delivers(cfg, net, f, from, hops, to)
    ensures SpeaksFor(cfg, f, net.hosts[from].zone)
  {
    HostsEnterInTheirZone(cfg, net, plan, from);
    if hops[0].switch == net.core {
      CoreSends(cfg, net, plan, f, hops[0]);
    } else {
      LeafSends(cfg, net, plan, f, hops[0]);
    }
  }

  /** In-zone broadcast is exact: a host's broadcast reaches another host if and only if it is one the host
      may send and that host is in the same zone; it does so by exactly one way, of at most three hops,
      carrying one copy. */
  lemma BroadcastIsExact(cfg: Config, net: Network, plan: Plan, f: Frame, from: string, hops: seq<Hop>, to: string)
    requires Wired(cfg, net, plan) && from in net.hosts && to in net.hosts
    ensures Delivers(cfg, net, f, from, hops, to)
            <==> SpeaksFor(cfg, f, net.hosts[from].zone) && from != to && net.hosts[from].zone == net.hosts[to].zone && hops == Way(net, from, to)
    ensures Delivers(cfg, net, f, from, hops, to) ==> |hops| <= 3 && Multiplicity(cfg, net, f, hops) == 1
  {
    if Delivers(cfg, net, f, from, hops, to) {
      DeliveriesGoTheWay(cfg, net, plan, f, from, hops, to);
      DeliveriesAreHonest(cfg, net, plan, f, from, hops, to);
      TrailsAreShort(cfg, net, plan, f, from, hops);
      OneCopyPerWay(cfg, net, plan, f, hops);
    }
    if SpeaksFor(cfg, f, net.hosts[from].zone) && from != to && net.hosts[from].zone == net.hosts[to].zone {
      TheWayDelivers(cfg, net, plan, f, from, to);
    }
  }

  // --- What the controller really sends --------------------------------------------------------

  /** A broadcast on its way: the frame, and the state and clock of the controller when the frame comes to
      each switch. */
  datatype Journey = Journey(frame: Frame, seen: Dpid -> (Router, Readings))

  ghost predicate Sound(cfg: Config, j: Journey) {
    && ConfigOk(cfg) && IsBroadcast(cfg, j.frame)
    && forall dpid :: Consistent(cfg, j.seen(dpid).0) && j.seen(dpid).0.outbox == []
  }

  /** The messages the controller sends when the frame comes in as the hop says. */
  ghost function ReallySent(cfg: Config, net: Network, j: Journey, hop: Hop): seq<Msg>
    requires hop.switch in net.switches && Sound(cfg, j)
  {
    var e := Entering(net, j.frame, hop);
    HandlePacketIn(cfg, j.seen(e.dpid).0, e, j.seen(e.dpid).1).outbox
  }

  /** At every hop the controller puts a copy where the next begins, and the last ends at the other host. */
  ghost predicate ReallyDelivers(cfg: Config, net: Network, j: Journey, from: string, hops: seq<Hop>, to: string)
    requires Sound(cfg, j)
  {
    && from in net.hosts && hops != [] && PluggedInto(net, HostPlug(from), hops[0].switch, hops[0].inPort)
    && (forall k :: 0 <= k < |hops| ==> hops[k].switch in net.switches && Copies(ReallySent(cfg, net, j, hops[k]), hops[k].inPort, hops[k].outPort) > 0)
    && (forall k :: 0 <= k < |hops| - 1 ==> Linked(net, hops[k], hops[k + 1]))
    && PluggedInto(net, HostPlug(to), hops[|hops| - 1].switch, hops[|hops| - 1].outPort)
  }

  lemma CopiesAreReal(cfg: Config, net: Network, j: Journey, hop: Hop)
    requires hop.switch in net.switches && Sound(cfg, j)
    ensures CopiesSent(cfg, net, j.frame, hop) == Copies(ReallySent(cfg, net, j, hop), hop.inPort, hop.outPort)
  {
    var e := Entering(net, j.frame, hop);
    BroadcastsAreFlooded(cfg, j.seen(e.dpid).0, e, j.seen(e.dpid).1);
    var msgs := if IsHeard(cfg, e) then FloodMsgs(cfg, e) else [];
    assert [] + msgs == msgs;
  }

  /** Whatever state the controller is in at each hop, a host's broadcast, such as its ARP request for
      another host, really reaches another host if and only if the host may send it and the other is in its
      zone, by the one way there is, one copy at every hop. */
  lemma BroadcastsReallyArrive(cfg: Config, net: Network, plan: Plan, j: Journey, from: string, hops: seq<Hop>, to: string)
    requires Wired(cfg, net, plan) && Sound(cfg, j) && from in net.hosts && to in net.hosts
    ensures ReallyDelivers(cfg, net, j, from, hops, to)
            <==> SpeaksFor(cfg, j.frame, net.hosts[from].zone) && from != to && net.hosts[from].zone == net.hosts[to].zone && hops == Way(net, from, to)
    ensures ReallyDelivers(cfg, net, j, from, hops, to) ==> OneCopyEach(cfg, net, j, hops)
  {
    BroadcastIsExact(cfg, net, plan, j.frame, from, hops, to);
    RealDeliveriesAreModelled(cfg, net, plan, j, from, hops, to);
  }

  ghost predicate OneCopyEach(cfg: Config, net: Network, j: Journey, hops: seq<Hop>)
    requires Sound(cfg, j)
  {
    forall k :: 0 <= k < |hops| ==> hops[k].switch in net.switches && Copies(ReallySent(cfg, net, j, hops[k]), hops[k].inPort, hops[k].outPort) == 1
  }

  lemma RealDeliveriesAreModelled(cfg: Config, net: Network, plan: Plan, j: Journey, from: string, hops: seq<Hop>, to: string)
    requires Wired(cfg, net, plan) && Sound(cfg, j)
    ensures ReallyDelivers(cfg, net, j, from, hops, to) <==> Delivers(cfg, net, j.frame, from, hops, to)
    ensures ReallyDelivers(cfg, net, j, from, hops, to) ==> OneCopyEach(cfg, net, j, hops)
  {
    RealIsModelled(cfg, net, plan, j, hops);
  }

  lemma RealIsModelled(cfg: Config, net: Network, plan: Plan, j: Journey, hops: seq<Hop>)
    requires Wired(cfg, net, plan) && Sound(cfg, j)
    ensures forall k :: 0 <= k < |hops| && hops[k].switch in net.switches ==>
              CopiesSent(cfg, net, j.frame, hops[k]) == Copies(ReallySent(cfg, net, j, hops[k]), hops[k].inPort, hops[k].outPort) <= 1
  {
    forall k | 0 <= k < |hops| && hops[k].switch in net.switches
      ensures CopiesSent(cfg, net, j.frame, hops[k]) == Copies(ReallySent(cfg, net, j, hops[k]), hops[k].inPort, hops[k].outPort) <= 1
    {
      CopiesAreReal(cfg, net, j, hops[k]);
      AtMostOneCopy(cfg, net, plan, j.frame, hops[k]);
    }
  }
}
