/** network.py `port_maps`, and what an accepted layout guarantees about the maps. */
module Wiring {
  import opened Common
  import opened Ipv4
  import opened Policy
  import opened OpenFlow
  import opened RouterModel
  import opened Layout

  // --- What acceptance gives -------------------------------------------------------------------

  /** A star: one core, every other switch a leaf with one uplink, no port used twice. */
  ghost predicate Star(net: Network) {
    && net.core in net.switches
    && (forall a, b :: a in net.switches && b in net.switches && a != b ==> net.switches[a].dpid != net.switches[b].dpid)
    && (forall name :: name in net.switches ==> (net.switches[name].zone.None? <==> name == net.core))
    && (forall name :: name in net.uplinks <==> name in net.switches && name != net.core)
    && (forall h :: h in net.hosts ==> net.hosts[h].switch in net.switches)
    && PortsUnique(net)
  }

  /** Switches and hosts agree with the policy about their zones. */
  ghost predicate Zoned(net: Network, plan: Plan) {
    && (forall name :: name in net.switches && net.switches[name].zone.Some? ==> plan.known(net.switches[name].zone.value))
    && (forall h :: h in net.hosts ==> HostZoned(net, plan, net.hosts[h]))
    && (forall g, h :: g in net.hosts && h in net.hosts && g != h ==> net.hosts[g].ip != net.hosts[h].ip)
  }

  ghost predicate HostZoned(net: Network, plan: Plan, h: Host) {
    && plan.zoneOf(h.ip) == Some(h.zone) && !plan.reserved(h.zone, h.ip)
    && (h.switch in net.switches && h.switch != net.core ==> net.switches[h.switch].zone == Some(h.zone))
  }

  lemma AcceptedSwitches(raw: seq<RawSwitch>, plan: Plan, switches: map<string, Switch>, core: string)
    requires SwitchesAcceptable(raw, plan) && SwitchesLoaded(raw, switches) && IsTheCore(raw, core)
    requires forall i, j :: 0 <= i < j < |raw| ==> raw[i].name != raw[j].name
    ensures core in switches
    ensures forall a, b :: a in switches && b in switches && a != b ==> switches[a].dpid != switches[b].dpid
    ensures forall name :: name in switches ==> (switches[name].zone.None? <==> name == core)
    ensures forall name :: name in switches && switches[name].zone.Some? ==> plan.known(switches[name].zone.value)
  {
  }

  lemma AcceptedHosts(raw: seq<RawHost>, plan: Plan, net: Network)
    requires HostsAcceptable(raw, plan, net.switches, net.core) && HostsLoaded(raw, plan, net.hosts)
    ensures forall h :: h in net.hosts ==> net.hosts[h].switch in net.switches && HostZoned(net, plan, net.hosts[h])
    ensures forall g, h :: g in net.hosts && h in net.hosts && g != h ==> net.hosts[g].ip != net.hosts[h].ip
  {
  }

  /** Everything the loader's loops check adds up to a star with consistent zones. */
  lemma AcceptedIsAStar(raw: Raw, plan: Plan, net: Network)
    requires DistinctKeys(raw) && Describes(raw, plan, net)
    ensures Star(net) && Zoned(net, plan)
  {
    AcceptedSwitches(raw.switches, plan, net.switches, net.core);
    AcceptedHosts(raw.hosts, plan, net);
    forall name ensures name in net.uplinks <==> name in net.switches && name != net.core {
      if name in net.uplinks {
        var i :| 0 <= i < |raw.uplinks| && raw.uplinks[i].leaf == Some(name);
      }
    }
  }

  // --- The maps --------------------------------------------------------------------------------

  function DpidOf(net: Network, switch: string): Dpid
    requires switch in net.switches
  {
    net.switches[switch].dpid
  }

  function LeafZone(net: Network, leaf: string): ZoneName
    requires Star(net) && leaf in net.uplinks
  {
    net.switches[leaf].zone.value
  }

  /** The port a plug occupies. */
  function PlugPort(net: Network, p: Plug): Port
    requires Star(net) && IsPlug(net, p)
  {
    Place(net, p).1.value
  }

  lemma PlugsApart(net: Network, p: Plug, q: Plug)
    requires Star(net) && IsPlug(net, p) && IsPlug(net, q) && p != q && Place(net, p).0 == Place(net, q).0
    ensures PlugPort(net, p) != PlugPort(net, q)
  {
  }

  function UplinkPorts(net: Network): map<Port, ZoneName>
    requires Star(net)
  {
    assert forall a, b :: a in net.uplinks && b in net.uplinks && a != b ==>
      PlugPort(net, CorePlug(a)) != PlugPort(net, CorePlug(b)) by {
      forall a, b | a in net.uplinks && b in net.uplinks && a != b
        ensures PlugPort(net, CorePlug(a)) != PlugPort(net, CorePlug(b))
      {
        PlugsApart(net, CorePlug(a), CorePlug(b));
      }
    }
    map leaf | leaf in net.uplinks :: PlugPort(net, CorePlug(leaf)) := LeafZone(net, leaf)
  }

  function CoreHostPorts(net: Network): map<Port, ZoneName>
    requires Star(net)
  {
    assert forall g, h :: g in net.hosts && h in net.hosts && g != h && net.hosts[g].switch == net.core && net.hosts[h].switch == net.core ==>
      PlugPort(net, HostPlug(g)) != PlugPort(net, HostPlug(h)) by {
      forall g, h | g in net.hosts && h in net.hosts && g != h && net.hosts[g].switch == net.core && net.hosts[h].switch == net.core
        ensures PlugPort(net, HostPlug(g)) != PlugPort(net, HostPlug(h))
      {
        PlugsApart(net, HostPlug(g), HostPlug(h));
      }
    }
    map h | h in net.hosts && net.hosts[h].switch == net.core :: PlugPort(net, HostPlug(h)) := net.hosts[h].zone
  }

  function SwitchZones(net: Network): map<Dpid, ZoneName>
    requires Star(net)
  {
    map name | name in net.switches && name != net.core :: DpidOf(net, name) := net.switches[name].zone.value
  }

  function LeafUplinkPorts(net: Network): map<Dpid, Port>
    requires Star(net)
  {
    map leaf | leaf in net.uplinks :: DpidOf(net, leaf) := PlugPort(net, LeafPlug(leaf))
  }

  function LeafCorePorts(net: Network): map<Dpid, Port>
    requires Star(net)
  {
    map leaf | leaf in net.uplinks :: DpidOf(net, leaf) := PlugPort(net, CorePlug(leaf))
  }

  function PortMapsOf(net: Network): PortMaps
    requires Star(net)
  {
    PortMaps(DpidOf(net, net.core), SwitchZones(net), LeafUplinkPorts(net), LeafCorePorts(net),
             UplinkPorts(net) + CoreHostPorts(net))
  }

  // --- What the maps say -----------------------------------------------------------------------

  predicate LeafMapped(net: Network, m: PortMaps, leaf: string)
    requires leaf in net.switches && leaf in net.uplinks
  {
    var d, zone, link := DpidOf(net, leaf), net.switches[leaf].zone, net.uplinks[leaf];
    && zone.Some? && Get(m.switchZone, d) == zone
    && link.leafPort.Some? && Get(m.leafUplinkPort, d) == link.leafPort
    && link.corePort.Some? && Get(m.leafCorePort, d) == link.corePort
    && Get(m.corePortZones, link.corePort.value) == zone
  }

  ghost predicate IsLeaf(net: Network, leaf: string, d: Dpid) {
    leaf in net.uplinks && leaf in net.switches && DpidOf(net, leaf) == d
  }

  predicate HostMapped(net: Network, m: PortMaps, h: Host) {
    h.switch == net.core ==> h.port.Some? && Get(m.corePortZones, h.port.value) == Some(h.zone)
  }

  predicate Behind(net: Network, plug: Plug, p: Port) {
    IsPlug(net, plug) && Place(net, plug) == (net.core, Some(p))
  }

  /** The maps against the layout: an entry for every leaf and for every host on the core, and
      nothing else. */
  ghost predicate Mapped(net: Network, m: PortMaps) {
    && net.core in net.switches && m.coreDpid == DpidOf(net, net.core)
    && LeavesMapped(net, m)
    && KeyedByLeaves(net, m.switchZone) && KeyedByLeaves(net, m.leafUplinkPort) && KeyedByLeaves(net, m.leafCorePort)
    && HostsMapped(net, m) && OnlyPlugs(net, m.corePortZones)
  }

  ghost predicate LeavesMapped(net: Network, m: PortMaps) {
    forall leaf :: leaf in net.uplinks ==> leaf in net.switches && LeafMapped(net, m, leaf)
  }

  ghost predicate HostsMapped(net: Network, m: PortMaps) {
    forall h :: h in net.hosts ==> HostMapped(net, m, net.hosts[h])
  }

  /** A map by dpid has only leaves as keys. */
  ghost predicate KeyedByLeaves<V>(net: Network, m: map<Dpid, V>) {
    forall d :: d in m ==> exists leaf :: IsLeaf(net, leaf, d)
  }

  ghost predicate OnlyPlugs(net: Network, zones: map<Port, ZoneName>) {
    forall p :: p in zones ==> exists plug :: Behind(net, plug, p)
  }

  lemma UplinkPortsOfLeaf(net: Network, leaf: string)
    requires Star(net) && leaf in net.uplinks
    ensures var p := PlugPort(net, CorePlug(leaf));
            p in UplinkPorts(net) && UplinkPorts(net)[p] == LeafZone(net, leaf) && p !in CoreHostPorts(net)
  {
  }

  lemma SwitchZonesHoldZones(net: Network, zones: map<Dpid, ZoneName>)
    requires Star(net) && zones == SwitchZones(net)
    ensures forall leaf :: leaf in net.uplinks ==> Get(zones, DpidOf(net, leaf)) == net.switches[leaf].zone
    ensures KeyedByLeaves(net, zones)
  {
    forall leaf | leaf in net.uplinks ensures Get(zones, DpidOf(net, leaf)) == net.switches[leaf].zone {
      assert DpidOf(net, leaf) in zones.Keys;
    }
    forall d | d in zones ensures exists leaf :: IsLeaf(net, leaf, d) {
      var leaf :| leaf in net.switches && leaf != net.core && DpidOf(net, leaf) == d;
      assert IsLeaf(net, leaf, d);
    }
  }

  lemma LeafUplinkPortsHoldPorts(net: Network, ports: map<Dpid, Port>)
    requires Star(net) && ports == LeafUplinkPorts(net)
    ensures forall leaf :: leaf in net.uplinks ==> Get(ports, DpidOf(net, leaf)) == net.uplinks[leaf].leafPort
    ensures KeyedByLeaves(net, ports)
  {
    forall leaf | leaf in net.uplinks ensures Get(ports, DpidOf(net, leaf)) == net.uplinks[leaf].leafPort {
      assert DpidOf(net, leaf) in ports.Keys && Place(net, LeafPlug(leaf)).1.Some?;
    }
    forall d | d in ports ensures exists leaf :: IsLeaf(net, leaf, d) {
      var leaf :| leaf in net.uplinks && DpidOf(net, leaf) == d;
      assert IsLeaf(net, leaf, d);
    }
  }

  lemma LeafCorePortsHoldPorts(net: Network, ports: map<Dpid, Port>)
    requires Star(net) && ports == LeafCorePorts(net)
    ensures forall leaf :: leaf in net.uplinks ==> Get(ports, DpidOf(net, leaf)) == net.uplinks[leaf].corePort
    ensures KeyedByLeaves(net, ports)
  {
    forall leaf | leaf in net.uplinks ensures Get(ports, DpidOf(net, leaf)) == net.uplinks[leaf].corePort {
      assert DpidOf(net, leaf) in ports.Keys && Place(net, CorePlug(leaf)).1.Some?;
    }
    forall d | d in ports ensures exists leaf :: IsLeaf(net, leaf, d) {
      var leaf :| leaf in net.uplinks && DpidOf(net, leaf) == d;
      assert IsLeaf(net, leaf, d);
    }
  }

  lemma CorePortZonesHoldZones(net: Network, zones: map<Port, ZoneName>)
    requires Star(net) && zones == UplinkPorts(net) + CoreHostPorts(net)
    ensures forall leaf :: leaf in net.uplinks ==> net.uplinks[leaf].corePort.Some? && Get(zones, net.uplinks[leaf].corePort.value) == net.switches[leaf].zone
    ensures forall h :: h in net.hosts && net.hosts[h].switch == net.core ==>
              net.hosts[h].port.Some? && Get(zones, net.hosts[h].port.value) == Some(net.hosts[h].zone)
    ensures OnlyPlugs(net, zones)
  {
    forall leaf | leaf in net.uplinks
      ensures net.uplinks[leaf].corePort.Some? && Get(zones, net.uplinks[leaf].corePort.value) == net.switches[leaf].zone
    {
      assert Place(net, CorePlug(leaf)).1.Some?;
      UplinkPortsOfLeaf(net, leaf);
    }
    forall h | h in net.hosts && net.hosts[h].switch == net.core
      ensures net.hosts[h].port.Some? && Get(zones, net.hosts[h].port.value) == Some(net.hosts[h].zone)
    {
      assert Place(net, HostPlug(h)).1.Some?;
    }
    forall p | p in zones ensures exists plug :: Behind(net, plug, p) {
      if p in CoreHostPorts(net) {
        HostPortIsPlugged(net, p);
      } else {
        LeafPortIsPlugged(net, p);
      }
    }
  }

  lemma HostPortIsPlugged(net: Network, p: Port)
    requires Star(net) && p in CoreHostPorts(net)
    ensures exists plug :: Behind(net, plug, p)
  {
    var h :| h in net.hosts && net.hosts[h].switch == net.core && PlugPort(net, HostPlug(h)) == p;
    assert Place(net, HostPlug(h)).1.Some?;
    assert Behind(net, HostPlug(h), p);
  }

  lemma LeafPortIsPlugged(net: Network, p: Port)
    requires Star(net) && p in UplinkPorts(net)
    ensures exists plug :: Behind(net, plug, p)
  {
    var leaf :| leaf in net.uplinks && PlugPort(net, CorePlug(leaf)) == p;
    assert Place(net, CorePlug(leaf)).1.Some?;
    assert Behind(net, CorePlug(leaf), p);
  }

  /** `port_maps` says exactly what the layout says. */
  lemma PortMapsOfIsMapped(net: Network)
    requires Star(net)
    ensures Mapped(net, PortMapsOf(net))
  {
    SwitchZonesHoldZones(net, SwitchZones(net));
    LeafUplinkPortsHoldPorts(net, LeafUplinkPorts(net));
    LeafCorePortsHoldPorts(net, LeafCorePorts(net));
    CorePortZonesHoldZones(net, UplinkPorts(net) + CoreHostPorts(net));
    ColumnsAreMapped(net, PortMapsOf(net));
  }

  lemma ColumnsAreMapped(net: Network, m: PortMaps)
    requires Star(net) && m.coreDpid == DpidOf(net, net.core) && HoldsUplinks(net, m) && OnlyPlugs(net, m.corePortZones)
    requires KeyedByLeaves(net, m.switchZone) && KeyedByLeaves(net, m.leafUplinkPort) && KeyedByLeaves(net, m.leafCorePort)
    requires forall h :: h in net.hosts && net.hosts[h].switch == net.core ==>
               net.hosts[h].port.Some? && Get(m.corePortZones, net.hosts[h].port.value) == Some(net.hosts[h].zone)
    ensures Mapped(net, m)
  {
    LeavesAreMapped(net, m);
  }

  /** The maps hold what the layout says of each uplink. */
  ghost predicate HoldsUplinks(net: Network, m: PortMaps)
    requires Star(net)
  {
    && (forall leaf :: leaf in net.uplinks ==> Get(m.switchZone, DpidOf(net, leaf)) == net.switches[leaf].zone)
    && (forall leaf :: leaf in net.uplinks ==> Get(m.leafUplinkPort, DpidOf(net, leaf)) == net.uplinks[leaf].leafPort)
    && (forall leaf :: leaf in net.uplinks ==> Get(m.leafCorePort, DpidOf(net, leaf)) == net.uplinks[leaf].corePort)
    && (forall leaf :: leaf in net.uplinks ==>
          net.uplinks[leaf].corePort.Some? && Get(m.corePortZones, net.uplinks[leaf].corePort.value) == net.switches[leaf].zone)
  }

  lemma LeavesAreMapped(net: Network, m: PortMaps)
    requires Star(net) && HoldsUplinks(net, m)
    ensures LeavesMapped(net, m)
  {
    forall leaf | leaf in net.uplinks ensures leaf in net.switches && LeafMapped(net, m, leaf) {
      LeafIsMapped(net, m, leaf);
    }
  }

  lemma LeafIsMapped(net: Network, m: PortMaps, leaf: string)
    requires Star(net) && leaf in net.uplinks && net.uplinks[leaf].corePort.Some?
    requires Get(m.switchZone, DpidOf(net, leaf)) == net.switches[leaf].zone && Get(m.leafUplinkPort, DpidOf(net, leaf)) == net.uplinks[leaf].leafPort
    requires Get(m.leafCorePort, DpidOf(net, leaf)) == net.uplinks[leaf].corePort
    requires Get(m.corePortZones, net.uplinks[leaf].corePort.value) == net.switches[leaf].zone
    ensures LeafMapped(net, m, leaf)
  {
    assert Place(net, LeafPlug(leaf)).1.Some?;
  }

  /** The controller's maps are those of an accepted layout. */
  ghost predicate Wired(cfg: Config, net: Network, plan: Plan) {
    Star(net) && Zoned(net, plan) && Mapped(net, cfg.maps) && InverseOf(cfg.zoneCorePorts, cfg.maps.corePortZones)
  }

  // --- Consistency -----------------------------------------------------------------------------

  /** Every leaf has an uplink port and a core port, the core port lies in the leaf's zone, and no two
      leaves share one. */
  lemma MapsAreConsistent(net: Network, m: PortMaps)
    requires Star(net) && Mapped(net, m)
    ensures MapsOk(m)
  {
    forall d | d in m.switchZone || d in m.leafUplinkPort || d in m.leafCorePort
      ensures d in m.switchZone && d in m.leafUplinkPort && d in m.leafCorePort && m.leafCorePort[d] in m.corePortZones
      ensures m.corePortZones[m.leafCorePort[d]] == m.switchZone[d] && d != m.coreDpid
    {
      var leaf :| IsLeaf(net, leaf, d);
      MappedLeafIsConsistent(net, m, leaf, d);
    }
    CorePortsAreDistinct(net, m);
  }

  lemma CorePortsAreDistinct(net: Network, m: PortMaps)
    requires Star(net) && Mapped(net, m) && m.leafCorePort.Keys == m.switchZone.Keys
    ensures forall d, e :: d in m.switchZone && e in m.switchZone && d != e ==> m.leafCorePort[d] != m.leafCorePort[e]
  {
    forall d, e | d in m.switchZone && e in m.switchZone && d != e
      ensures m.leafCorePort[d] != m.leafCorePort[e]
    {
      var a :| IsLeaf(net, a, d);
      var b :| IsLeaf(net, b, e);
      LeavesHaveDistinctPorts(net, m, a, b, d, e);
    }
  }

  lemma MappedLeafIsConsistent(net: Network, m: PortMaps, leaf: string, d: Dpid)
    requires Star(net) && Mapped(net, m) && IsLeaf(net, leaf, d)
    ensures d in m.switchZone && d in m.leafUplinkPort && d in m.leafCorePort && m.leafCorePort[d] in m.corePortZones
    ensures m.corePortZones[m.leafCorePort[d]] == m.switchZone[d] && d != m.coreDpid
  {
    assert LeafMapped(net, m, leaf);
  }

  lemma LeavesHaveDistinctPorts(net: Network, m: PortMaps, a: string, b: string, d: Dpid, e: Dpid)
    requires Star(net) && Mapped(net, m) && IsLeaf(net, a, d) && IsLeaf(net, b, e) && d != e
    ensures d in m.leafCorePort && e in m.leafCorePort && m.leafCorePort[d] != m.leafCorePort[e]
  {
    assert LeafMapped(net, m, a) && LeafMapped(net, m, b);
    PlugsApart(net, CorePlug(a), CorePlug(b));
  }

  /** Both zone maps name zones of the policy. */
  lemma MappedZonesAreKnown(net: Network, plan: Plan, m: PortMaps)
    requires Star(net) && Zoned(net, plan) && Mapped(net, m)
    requires forall ip :: plan.zoneOf(ip).Some? ==> plan.known(plan.zoneOf(ip).value)
    ensures forall d :: d in m.switchZone ==> plan.known(m.switchZone[d])
    ensures forall p :: p in m.corePortZones ==> plan.known(m.corePortZones[p])
  {
  }

  // --- Hosts -----------------------------------------------------------------------------------

  /** Where a host's packets enter, the controller finds the zone of its address, and never takes the
      port for an uplink. */
  lemma HostsEnterInTheirZone(cfg: Config, net: Network, plan: Plan, h: string)
    requires Wired(cfg, net, plan) && h in net.hosts
    ensures var host, d, p := net.hosts[h], DpidOf(net, net.hosts[h].switch), PlugPort(net, HostPlug(h));
            && ZoneOfPort(cfg, d, p) == Some(host.zone) && plan.zoneOf(host.ip) == Some(host.zone)
            && !IsLeafUplink(cfg, d, p)
  {
    var host, d := net.hosts[h], DpidOf(net, net.hosts[h].switch);
    assert HostZoned(net, plan, host) && HostMapped(net, cfg.maps, host);
    if host.switch != net.core {
      assert LeafMapped(net, cfg.maps, host.switch);
      PlugsApart(net, HostPlug(h), LeafPlug(host.switch));
    }
  }

  /** A port is taken for an uplink exactly if the layout plugs a leaf's uplink in there. */
  lemma UplinksAreRecognised(cfg: Config, net: Network, plan: Plan, d: Dpid, p: Port)
    requires Wired(cfg, net, plan)
    ensures IsLeafUplink(cfg, d, p) <==> exists leaf :: IsLeaf(net, leaf, d) && net.uplinks[leaf].leafPort == Some(p)
  {
    if IsLeafUplink(cfg, d, p) {
      var leaf :| IsLeaf(net, leaf, d);
      assert LeafMapped(net, cfg.maps, leaf);
    }
    forall leaf | IsLeaf(net, leaf, d) && net.uplinks[leaf].leafPort == Some(p) ensures IsLeafUplink(cfg, d, p) {
      assert LeafMapped(net, cfg.maps, leaf);
    }
  }

  /** The core port a host is reached through: its own port, or the one facing its leaf. */
  function CoreSide(net: Network, h: string): Port
    requires Star(net) && h in net.hosts
  {
    if net.hosts[h].switch == net.core then PlugPort(net, HostPlug(h)) else PlugPort(net, CorePlug(net.hosts[h].switch))
  }

  /** A host's frame gets the same zone, and the same location is stored for it, whether the
      controller first sees it at the host's leaf or at the core. */
  lemma SameLocationAtLeafAndCore(cfg: Config, net: Network, plan: Plan, h: string, r: Router, ip: Addr, mac: Mac, zone: ZoneName)
    requires Wired(cfg, net, plan) && h in net.hosts
    ensures var d, p, c := DpidOf(net, net.hosts[h].switch), PlugPort(net, HostPlug(h)), CoreSide(net, h);
            && ZoneOfPort(cfg, d, p) == ZoneOfPort(cfg, cfg.maps.coreDpid, c) == Some(net.hosts[h].zone)
            && Learn(cfg, r, d, p, ip, mac, zone).ipToLoc == Learn(cfg, r, cfg.maps.coreDpid, c, ip, mac, zone).ipToLoc
                 == r.ipToLoc[ip := Location(c, mac, zone)]
  {
  }
}
