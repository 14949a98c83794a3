/** network.py: loading and validating the network layout, and the port maps derived from it. */
module Layout {
  import opened Common
  import opened Ipv4
  import opened Policy
  import opened OpenFlow

  // --- The file --------------------------------------------------------------------------------

  /** Parsed entries of the file; a value that is missing or of the wrong type is None. */
  datatype RawSwitch = RawSwitch(name: string, dpid: Option<int>, core: bool, zone: Option<ZoneName>)

  datatype RawUplink = RawUplink(leaf: Option<string>, leafPort: Option<int>, corePort: Option<int>)

  datatype RawHost = RawHost(name: string, ip: Option<Addr>, switch: Option<string>, port: Option<int>)

  datatype Raw = Raw(switches: seq<RawSwitch>, uplinks: seq<RawUplink>, hosts: seq<RawHost>)

  datatype Switch = Switch(dpid: Dpid, zone: Option<ZoneName>)

  datatype Uplink = Uplink(leafPort: Option<int>, corePort: Option<int>)

  datatype Host = Host(ip: Addr, zone: ZoneName, switch: string, port: Option<int>)

  datatype Network = Network(core: string, switches: map<string, Switch>, uplinks: map<string, Uplink>, hosts: map<string, Host>)

  /** What the layout asks of the policy: which zones there are, which zone an address belongs to,
      and whether an address of a zone is its gateway, network or broadcast address. */
  datatype Plan = Plan(known: ZoneName -> bool, zoneOf: Addr -> Option<ZoneName>, reserved: (ZoneName, Addr) -> bool)

  predicate Reserved(zones: seq<Zone>, zone: ZoneName, ip: Addr) {
    HasZone(zones, zone) &&
    var z := ZoneNamed(zones, zone);
    z.subnet.prefix <= 32 && (ip == z.gateway || ip == z.subnet.network || ip == Broadcast(z.subnet))
  }

  function PlanOf(zones: seq<Zone>): Plan {
    Plan(name => HasZone(zones, name), (ip: Addr) => ZoneForIp(zones, ip), (zone, ip: Addr) => Reserved(zones, zone, ip))
  }

  /** Which of the four checks rejected the file. */
  datatype Stage = BadSwitches | BadUplinks | BadHosts | BadPorts

  /** JSON objects have distinct keys. */
  ghost predicate DistinctKeys(raw: Raw) {
    && (forall i, j :: 0 <= i < j < |raw.switches| ==> raw.switches[i].name != raw.switches[j].name)
    && (forall i, j :: 0 <= i < j < |raw.hosts| ==> raw.hosts[i].name != raw.hosts[j].name)
  }

  // --- Switches --------------------------------------------------------------------------------

  predicate SwitchAcceptable(s: RawSwitch, plan: Plan) {
    s.dpid.Some? && s.dpid.value > 0 && (s.core || (s.zone.Some? && plan.known(s.zone.value)))
  }

  ghost predicate OneCore(raw: seq<RawSwitch>, k: int) {
    0 <= k < |raw| && raw[k].core && forall i :: 0 <= i < |raw| && raw[i].core ==> i == k
  }

  ghost predicate SwitchesAcceptable(raw: seq<RawSwitch>, plan: Plan) {
    && (forall i :: 0 <= i < |raw| ==> SwitchAcceptable(raw[i], plan))
    && (forall i, j :: 0 <= i < j < |raw| ==> raw[i].dpid != raw[j].dpid)
    && exists k :: OneCore(raw, k)
  }

  function SwitchOf(s: RawSwitch): Switch
    requires s.dpid.Some?
  {
    Switch(s.dpid.value, if s.core then None else s.zone)
  }

  function SwitchNames(raw: seq<RawSwitch>): seq<string> {
    seq(|raw|, i requires 0 <= i < |raw| => raw[i].name)
  }

  ghost predicate SwitchesLoaded(raw: seq<RawSwitch>, switches: map<string, Switch>) {
    && (forall name :: name in switches <==> name in SwitchNames(raw))
    && (forall i :: 0 <= i < |raw| ==> raw[i].dpid.Some? && raw[i].name in switches && switches[raw[i].name] == SwitchOf(raw[i]))
  }

  ghost predicate IsTheCore(raw: seq<RawSwitch>, name: string) {
    exists k :: OneCore(raw, k) && raw[k].name == name
  }

  /** The switches marked as core, in the order of the file. */
  function CoreNames(raw: seq<RawSwitch>): seq<string> {
    if raw == [] then []
    else
      var n := |raw| - 1;
      CoreNames(raw[..n]) + if raw[n].core then [raw[n].name] else []
  }

  lemma {:induction false} NoCoreNames(raw: seq<RawSwitch>)
    ensures CoreNames(raw) == [] <==> forall k :: 0 <= k < |raw| ==> !raw[k].core
  {
    if raw != [] {
      NoCoreNames(raw[..|raw| - 1]);
      assert forall k :: 0 <= k < |raw| - 1 ==> raw[..|raw| - 1][k] == raw[k];
    }
  }

  lemma {:induction false} CoreNamesCount(raw: seq<RawSwitch>)
    ensures |CoreNames(raw)| == 1 <==> exists k :: OneCore(raw, k)
    ensures |CoreNames(raw)| == 1 ==> IsTheCore(raw, CoreNames(raw)[0])
  {
    if raw != [] {
      var n := |raw| - 1;
      var prefix := raw[..n];
      assert forall k :: 0 <= k < n ==> prefix[k] == raw[k];
      NoCoreNames(prefix);
      if raw[n].core {
        assert (forall k :: 0 <= k < n ==> !prefix[k].core) <==> OneCore(raw, n);
        assert forall k :: OneCore(raw, k) ==> k == n;
      } else {
        CoreNamesCount(prefix);
        assert forall k :: OneCore(raw, k) <==> OneCore(prefix, k);
      }
    }
  }

  ghost predicate SwitchesChecked(raw: seq<RawSwitch>, plan: Plan, i: nat)
    requires i <= |raw|
  {
    && (forall k :: 0 <= k < i ==> SwitchAcceptable(raw[k], plan))
    && (forall j, k :: 0 <= j < k < i ==> raw[j].dpid != raw[k].dpid)
  }

  predicate DpidUsed(raw: seq<RawSwitch>, i: nat)
    requires i < |raw|
  {
    exists j :: 0 <= j < i && raw[j].dpid == raw[i].dpid
  }

  function SwitchesOf(raw: seq<RawSwitch>): map<string, Switch> {
    if raw == [] then map[]
    else
      var n := |raw| - 1;
      if raw[n].dpid.None? then SwitchesOf(raw[..n]) else SwitchesOf(raw[..n])[raw[n].name := SwitchOf(raw[n])]
  }

  lemma {:induction false} SwitchesOfIsLoaded(raw: seq<RawSwitch>)
    requires forall i, j :: 0 <= i < j < |raw| ==> raw[i].name != raw[j].name
    requires forall i :: 0 <= i < |raw| ==> raw[i].dpid.Some?
    ensures SwitchesLoaded(raw, SwitchesOf(raw))
  {
    if raw != [] {
      var n := |raw| - 1;
      SwitchesOfIsLoaded(raw[..n]);
      SwitchesLoadedOneMore(raw, n, SwitchesOf(raw[..n]));
      assert raw[..n + 1] == raw;
    }
  }

  method LoadSwitches(raw: seq<RawSwitch>, plan: Plan) returns (r: Option<(string, map<string, Switch>)>)
    requires forall i, j :: 0 <= i < j < |raw| ==> raw[i].name != raw[j].name
    ensures r.Some? <==> SwitchesAcceptable(raw, plan)
    ensures r.Some? ==> SwitchesLoaded(raw, r.value.1) && IsTheCore(raw, r.value.0)
  {
    var switches: map<string, Switch> := map[];
    var cores: seq<string> := [];
    for i := 0 to |raw|
      invariant SwitchesChecked(raw, plan, i)
      invariant switches == SwitchesOf(raw[..i])
      invariant cores == CoreNames(raw[..i])
    {
      var s := raw[i];
      if !SwitchAcceptable(s, plan) || DpidUsed(raw, i) {
        return None;
      }
      assert raw[..i + 1][..i] == raw[..i];
      if s.core {
        cores := cores + [s.name];
      }
      switches := switches[s.name := SwitchOf(s)];
    }
    assert raw[..|raw|] == raw;
    SwitchesOfIsLoaded(raw);
    CoreNamesCount(raw);
    if |cores| != 1 {
      return None;
    }
    return Some((cores[0], switches));
  }

  lemma SwitchesLoadedOneMore(raw: seq<RawSwitch>, i: nat, switches: map<string, Switch>)
    requires i < |raw| && SwitchesLoaded(raw[..i], switches) && raw[i].dpid.Some?
    requires forall j, k :: 0 <= j < k < |raw| ==> raw[j].name != raw[k].name
    ensures SwitchesLoaded(raw[..i + 1], switches[raw[i].name := SwitchOf(raw[i])])
  {
    var longer := raw[..i + 1];
    assert SwitchNames(longer) == SwitchNames(raw[..i]) + [raw[i].name];
    forall k | 0 <= k < i ensures longer[k] == raw[..i][k] && longer[k].name != raw[i].name {
    }
  }

  // --- Uplinks ---------------------------------------------------------------------------------

  ghost predicate UplinksAcceptable(raw: seq<RawUplink>, switches: map<string, Switch>, core: string) {
    && (forall i :: 0 <= i < |raw| ==> raw[i].leaf.Some? && raw[i].leaf.value in switches && raw[i].leaf.value != core)
    && (forall i, j :: 0 <= i < j < |raw| ==> raw[i].leaf != raw[j].leaf)
    && (forall name :: name in switches && name != core ==> exists i :: 0 <= i < |raw| && raw[i].leaf == Some(name))
  }

  ghost predicate UplinksLoaded(raw: seq<RawUplink>, uplinks: map<string, Uplink>) {
    && (forall name :: name in uplinks <==> exists i :: 0 <= i < |raw| && raw[i].leaf == Some(name))
    && (forall i :: 0 <= i < |raw| && raw[i].leaf.Some? ==>
          raw[i].leaf.value in uplinks && uplinks[raw[i].leaf.value] == Uplink(raw[i].leafPort, raw[i].corePort))
  }

  ghost predicate UplinksChecked(raw: seq<RawUplink>, switches: map<string, Switch>, core: string, i: nat)
    requires i <= |raw|
  {
    && (forall k :: 0 <= k < i ==> raw[k].leaf.Some? && raw[k].leaf.value in switches && raw[k].leaf.value != core)
    && (forall j, k :: 0 <= j < k < i ==> raw[j].leaf != raw[k].leaf)
  }

  lemma OneMoreUplink(raw: seq<RawUplink>, switches: map<string, Switch>, core: string, i: nat, uplinks: map<string, Uplink>)
    requires i < |raw| && UplinksChecked(raw, switches, core, i) && UplinksLoaded(raw[..i], uplinks)
    requires raw[i].leaf.Some?
    ensures raw[i].leaf.value in uplinks ==> !UplinksAcceptable(raw, switches, core)
    ensures raw[i].leaf.value in switches && raw[i].leaf.value != core && raw[i].leaf.value !in uplinks ==>
              && UplinksChecked(raw, switches, core, i + 1)
              && UplinksLoaded(raw[..i + 1], uplinks[raw[i].leaf.value := Uplink(raw[i].leafPort, raw[i].corePort)])
  {
  }

  method LoadUplinks(raw: seq<RawUplink>, switches: map<string, Switch>, core: string) returns (r: Option<map<string, Uplink>>)
    ensures r.Some? <==> UplinksAcceptable(raw, switches, core)
    ensures r.Some? ==> UplinksLoaded(raw, r.value)
  {
    var uplinks: map<string, Uplink> := map[];
    for i := 0 to |raw|
      invariant UplinksChecked(raw, switches, core, i)
      invariant UplinksLoaded(raw[..i], uplinks)
    {
      var link := raw[i];
      if link.leaf.None? || link.leaf.value !in switches || link.leaf.value == core {
        return None;
      }
      OneMoreUplink(raw, switches, core, i, uplinks);
      if link.leaf.value in uplinks {
        return None;
      }
      uplinks := uplinks[link.leaf.value := Uplink(link.leafPort, link.corePort)];
    }
    assert raw[..|raw|] == raw;
    var missing := set name | name in switches && name != core && name !in uplinks;
    if missing != {} {
      var name :| name in missing;
      assert name !in uplinks;
      return None;
    }
    forall name | name in switches && name != core ensures name in uplinks {
      assert name !in missing;
    }
    return Some(uplinks);
  }

  // --- Hosts -----------------------------------------------------------------------------------

  predicate HostAcceptable(h: RawHost, plan: Plan, switches: map<string, Switch>, core: string)
  {
    && h.ip.Some? && plan.zoneOf(h.ip.value).Some?
    && (var zone := plan.zoneOf(h.ip.value).value;
        && !plan.reserved(zone, h.ip.value)
        && h.switch.Some? && h.switch.value in switches
        && (h.switch.value != core ==> switches[h.switch.value].zone == Some(zone)))
  }

  ghost predicate HostsAcceptable(raw: seq<RawHost>, plan: Plan, switches: map<string, Switch>, core: string)
  {
    && (forall i :: 0 <= i < |raw| ==> HostAcceptable(raw[i], plan, switches, core))
    && (forall i, j :: 0 <= i < j < |raw| ==> raw[i].ip != raw[j].ip)
  }

  function HostOf(h: RawHost, plan: Plan): Host
    requires h.ip.Some? && plan.zoneOf(h.ip.value).Some? && h.switch.Some?
  {
    Host(h.ip.value, plan.zoneOf(h.ip.value).value, h.switch.value, h.port)
  }

  function HostNames(raw: seq<RawHost>): seq<string> {
    seq(|raw|, i requires 0 <= i < |raw| => raw[i].name)
  }

  ghost predicate HostsLoaded(raw: seq<RawHost>, plan: Plan, hosts: map<string, Host>) {
    && (forall name :: name in hosts <==> name in HostNames(raw))
    && (forall i :: 0 <= i < |raw| ==>
          && raw[i].ip.Some? && plan.zoneOf(raw[i].ip.value).Some? && raw[i].switch.Some?
          && raw[i].name in hosts && hosts[raw[i].name] == HostOf(raw[i], plan))
  }

  lemma HostsLoadedOneMore(raw: seq<RawHost>, plan: Plan, i: nat, hosts: map<string, Host>)
    requires i < |raw| && HostsLoaded(raw[..i], plan, hosts)
    requires raw[i].ip.Some? && plan.zoneOf(raw[i].ip.value).Some? && raw[i].switch.Some?
    requires forall j, k :: 0 <= j < k < |raw| ==> raw[j].name != raw[k].name
    ensures HostsLoaded(raw[..i + 1], plan, hosts[raw[i].name := HostOf(raw[i], plan)])
  {
    var longer := raw[..i + 1];
    assert HostNames(longer) == HostNames(raw[..i]) + [raw[i].name];
    forall k | 0 <= k < i ensures longer[k] == raw[..i][k] && longer[k].name != raw[i].name {
    }
  }

  ghost predicate HostsChecked(raw: seq<RawHost>, plan: Plan, switches: map<string, Switch>, core: string, i: nat, ips: set<Option<Addr>>)
    requires i <= |raw|
  {
    && (forall k :: 0 <= k < i ==> HostAcceptable(raw[k], plan, switches, core))
    && (forall j, k :: 0 <= j < k < i ==> raw[j].ip != raw[k].ip)
    && (forall ip :: ip in ips <==> exists k :: 0 <= k < i && raw[k].ip == ip)
  }

  lemma OneMoreHostChecked(raw: seq<RawHost>, plan: Plan, switches: map<string, Switch>, core: string, i: nat, ips: set<Option<Addr>>)
    requires i < |raw| && HostsChecked(raw, plan, switches, core, i, ips)
    ensures HostAcceptable(raw[i], plan, switches, core) && raw[i].ip !in ips ==>
              HostsChecked(raw, plan, switches, core, i + 1, ips + {raw[i].ip})
    ensures !HostAcceptable(raw[i], plan, switches, core) || raw[i].ip in ips ==> !HostsAcceptable(raw, plan, switches, core)
  {
  }

  method LoadHosts(raw: seq<RawHost>, plan: Plan, switches: map<string, Switch>, core: string) returns (r: Option<map<string, Host>>)
    requires forall i, j :: 0 <= i < j < |raw| ==> raw[i].name != raw[j].name
    ensures r.Some? <==> HostsAcceptable(raw, plan, switches, core)
    ensures r.Some? ==> HostsLoaded(raw, plan, r.value)
  {
    var hosts: map<string, Host> := map[];
    var ips: set<Option<Addr>> := {};
    for i := 0 to |raw|
      invariant HostsChecked(raw, plan, switches, core, i, ips)
      invariant HostsLoaded(raw[..i], plan, hosts)
    {
      var h := raw[i];
      OneMoreHostChecked(raw, plan, switches, core, i, ips);
      if !HostAcceptable(h, plan, switches, core) || h.ip in ips {
        return None;
      }
      ips := ips + {h.ip};
      HostsLoadedOneMore(raw, plan, i, hosts);
      hosts := hosts[h.name := HostOf(h, plan)];
    }
    assert raw[..|raw|] == raw;
    return Some(hosts);
  }

  // --- Ports -----------------------------------------------------------------------------------

  /** One end of a cable, named by what is plugged in. */
  datatype Plug = HostPlug(host: string) | LeafPlug(leaf: string) | CorePlug(leaf: string)

  predicate IsPlug(net: Network, p: Plug) {
    match p
    case HostPlug(h) => h in net.hosts
    case LeafPlug(leaf) => leaf in net.uplinks
    case CorePlug(leaf) => leaf in net.uplinks
  }

  function Place(net: Network, p: Plug): (string, Option<int>)
    requires IsPlug(net, p)
  {
    match p
    case HostPlug(h) => (net.hosts[h].switch, net.hosts[h].port)
    case LeafPlug(leaf) => (leaf, net.uplinks[leaf].leafPort)
    case CorePlug(leaf) => (net.core, net.uplinks[leaf].corePort)
  }

  ghost predicate PortsUnique(net: Network) {
    && (forall p :: IsPlug(net, p) ==> Place(net, p).1.Some? && Place(net, p).1.value > 0)
    && (forall p, q :: IsPlug(net, p) && IsPlug(net, q) && p != q ==> Place(net, p) != Place(net, q))
  }

  method CheckPortsUnique(net: Network) returns (ok: bool)
    ensures ok <==> PortsUnique(net)
  {
    var attachments: set<Plug> :=
      (set h | h in net.hosts :: HostPlug(h)) + (set leaf | leaf in net.uplinks :: LeafPlug(leaf))
      + (set leaf | leaf in net.uplinks :: CorePlug(leaf));
    assert forall p :: p in attachments <==> IsPlug(net, p);
    var used: map<(string, Option<int>), Plug> := map[];
    var done: set<Plug> := {};
    while attachments - done != {}
      invariant done <= attachments
      invariant forall p :: p in done ==> Place(net, p).1.Some? && Place(net, p).1.value > 0 && Place(net, p) in used
      invariant forall x :: x in used ==> used[x] in done && Place(net, used[x]) == x
      invariant forall p, q :: p in done && q in done && p != q ==> Place(net, p) != Place(net, q)
      decreases attachments - done
    {
      var p :| p in attachments - done;
      var place := Place(net, p);
      if place.1.None? || place.1.value <= 0 {
        return false;
      }
      if place in used {
        assert used[place] != p;
        return false;
      }
      used, done := used[place := p], done + {p};
    }
    assert forall p :: IsPlug(net, p) ==> p in attachments - done || p in done;
    return true;
  }

  // --- The whole file --------------------------------------------------------------------------

  /** The stages up to the network they produce, independent of how it is computed. */
  ghost predicate Describes(raw: Raw, plan: Plan, net: Network)
  {
    && SwitchesAcceptable(raw.switches, plan) && SwitchesLoaded(raw.switches, net.switches)
    && IsTheCore(raw.switches, net.core)
    && UplinksAcceptable(raw.uplinks, net.switches, net.core) && UplinksLoaded(raw.uplinks, net.uplinks)
    && HostsAcceptable(raw.hosts, plan, net.switches, net.core) && HostsLoaded(raw.hosts, plan, net.hosts)
    && PortsUnique(net)
  }

  method LoadNetwork(raw: Raw, plan: Plan) returns (r: Result<Network, Stage>)
    requires DistinctKeys(raw)
    ensures r.Ok? ==> Describes(raw, plan, r.value)
    ensures r.Err? ==> !exists net :: Describes(raw, plan, net)
    ensures r.Err? && r.error.BadSwitches? <==> !SwitchesAcceptable(raw.switches, plan)
  {
    var s := LoadSwitches(raw.switches, plan);
    if s.None? {
      return Err(BadSwitches);
    }
    var core, switches := s.value.0, s.value.1;
    forall net | Describes(raw, plan, net) ensures net.core == core && net.switches == switches {
      SwitchesAreDetermined(raw.switches, switches, net.switches);
    }
    var u := LoadUplinks(raw.uplinks, switches, core);
    if u.None? {
      return Err(BadUplinks);
    }
    forall net | Describes(raw, plan, net) ensures net.uplinks == u.value {
      UplinksAreDetermined(raw.uplinks, u.value, net.uplinks);
    }
    var h := LoadHosts(raw.hosts, plan, switches, core);
    if h.None? {
      return Err(BadHosts);
    }
    forall net | Describes(raw, plan, net) ensures net.hosts == h.value {
      HostsAreDetermined(raw.hosts, plan, h.value, net.hosts);
    }
    var net := Network(core, switches, u.value, h.value);
    var ok := CheckPortsUnique(net);
    if !ok {
      return Err(BadPorts);
    }
    return Ok(net);
  }

  lemma SwitchesAreDetermined(raw: seq<RawSwitch>, a: map<string, Switch>, b: map<string, Switch>)
    requires SwitchesLoaded(raw, a) && SwitchesLoaded(raw, b)
    ensures a == b
  {
  }

  lemma UplinksAreDetermined(raw: seq<RawUplink>, a: map<string, Uplink>, b: map<string, Uplink>)
    requires UplinksLoaded(raw, a) && UplinksLoaded(raw, b)
    ensures a == b
  {
  }

  lemma HostsAreDetermined(raw: seq<RawHost>, plan: Plan, a: map<string, Host>, b: map<string, Host>)
    requires HostsLoaded(raw, plan, a) && HostsLoaded(raw, plan, b)
    ensures a == b
  {
  }
}
