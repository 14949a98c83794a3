/** firewall_rules.py: loading and validating the zone policy, classifying addresses, and the
    stateless firewall verdict. */
module Policy {
  import opened Common
  import opened Ipv4

  type ZoneName = string
  type Mac = string

  datatype Zone = Zone(name: ZoneName, subnet: Subnet, gateway: Addr, gatewayMac: Mac)

  /** One entry of the file's "zones" object; an address that is missing or does not parse is None. */
  datatype RawZone = RawZone(name: ZoneName, subnet: Option<Subnet>, gateway: Option<Addr>, gatewayMac: string)

  datatype BlockKind = All | Icmp

  /** One entry of "rules"; a missing "from" or "to" list is empty, an unknown "block" is None. */
  datatype RawRule = RawRule(block: Option<BlockKind>, from: seq<ZoneName>, to: seq<ZoneName>)

  datatype Policy = Policy(zones: seq<Zone>, blockAll: set<(ZoneName, ZoneName)>, blockIcmp: set<(ZoneName, ZoneName)>)

  datatype PolicyError =
    | BadSubnetOrGateway(zone: nat)
    | GatewayOutside(zone: nat)
    | BadMac(zone: nat)
    | Overlap(zone: nat, other: nat)
    | SharedMac(zone: nat, other: nat)
    | NoZones
    | BadBlock(rule: nat)
    | UnknownZones(rule: nat)

  // --- MAC addresses ---------------------------------------------------------------------------

  function Lower(s: string): string {
    seq(|s|, i requires 0 <= i < |s| => if 'A' <= s[i] <= 'Z' then s[i] - 'A' + 'a' else s[i])
  }

  predicate IsHexDigit(c: char) {
    '0' <= c <= '9' || 'a' <= c <= 'f'
  }

  /** Six colon-separated pairs of hex digits; the `$` of the regular expression also lets one
      final newline through. */
  predicate IsMac(s: string) {
    && (|s| == 17 || (|s| == 18 && s[17] == '\n'))
    && forall i :: 0 <= i < 17 ==> if i % 3 == 2 then s[i] == ':' else IsHexDigit(s[i])
  }

  // --- Acceptance ------------------------------------------------------------------------------

  ghost predicate DistinctNames(raw: seq<RawZone>) {
    forall i, j :: 0 <= i < j < |raw| ==> raw[i].name != raw[j].name
  }

  predicate AddressesParse(z: RawZone) {
    z.subnet.Some? && IsNetwork(z.subnet.value) && z.gateway.Some?
  }

  predicate ZoneAcceptable(z: RawZone) {
    AddressesParse(z) && Contains(z.subnet.value, z.gateway.value) && IsMac(Lower(z.gatewayMac))
  }

  ghost predicate ClearOf(z: RawZone, other: RawZone)
    requires AddressesParse(z) && AddressesParse(other)
  {
    Disjoint(z.subnet.value, other.subnet.value) && Lower(z.gatewayMac) != Lower(other.gatewayMac)
  }

  ghost predicate ZonesAcceptable(raw: seq<RawZone>) {
    && (forall i :: 0 <= i < |raw| ==> ZoneAcceptable(raw[i]))
    && (forall i, j :: 0 <= j < i < |raw| ==> ClearOf(raw[i], raw[j]))
  }

  predicate NamesZone(raw: seq<RawZone>, name: ZoneName) {
    exists i :: 0 <= i < |raw| && raw[i].name == name
  }

  predicate KnownZones(raw: seq<RawZone>, names: seq<ZoneName>) {
    names != [] && forall k :: 0 <= k < |names| ==> NamesZone(raw, names[k])
  }

  predicate RuleAcceptable(raw: seq<RawZone>, rule: RawRule) {
    rule.block.Some? && KnownZones(raw, rule.from) && KnownZones(raw, rule.to)
  }

  /** The files load_policy accepts, stated without reference to its loops. */
  ghost predicate Acceptable(raw: seq<RawZone>, rules: seq<RawRule>) {
    raw != [] && ZonesAcceptable(raw) && forall i :: 0 <= i < |rules| ==> RuleAcceptable(raw, rules[i])
  }

  /** The error names something that really is wrong with the file. */
  ghost predicate Justified(e: PolicyError, raw: seq<RawZone>, rules: seq<RawRule>) {
    match e
    case BadSubnetOrGateway(i) => i < |raw| && !AddressesParse(raw[i])
    case GatewayOutside(i) => i < |raw| && AddressesParse(raw[i]) && !Contains(raw[i].subnet.value, raw[i].gateway.value)
    case BadMac(i) => i < |raw| && !IsMac(Lower(raw[i].gatewayMac))
    case Overlap(i, j) => j < i < |raw| && AddressesParse(raw[i]) && AddressesParse(raw[j])
                          && !Disjoint(raw[i].subnet.value, raw[j].subnet.value)
    case SharedMac(i, j) => j < i < |raw| && Lower(raw[i].gatewayMac) == Lower(raw[j].gatewayMac)
    case NoZones => raw == []
    case BadBlock(i) => i < |rules| && rules[i].block.None?
    case UnknownZones(i) => i < |rules| && !(KnownZones(raw, rules[i].from) && KnownZones(raw, rules[i].to))
  }

  /** The zone an error blames. */
  function ZoneOfFault(e: PolicyError): Option<nat> {
    match e
    case BadSubnetOrGateway(i) => Some(i)
    case GatewayOutside(i) => Some(i)
    case BadMac(i) => Some(i)
    case Overlap(i, _) => Some(i)
    case SharedMac(i, _) => Some(i)
    case NoZones => None
    case BadBlock(_) => None
    case UnknownZones(_) => None
  }

  function ZoneOfRaw(z: RawZone): Zone
    requires AddressesParse(z)
  {
    Zone(z.name, z.subnet.value, z.gateway.value, Lower(z.gatewayMac))
  }

  /** The pairs a rule of the given kind blocks. */
  ghost predicate Blocks(rules: seq<RawRule>, kind: BlockKind, pair: (ZoneName, ZoneName)) {
    exists i :: 0 <= i < |rules| && RuleBlocks(rules[i], kind, pair)
  }

  ghost predicate RuleBlocks(rule: RawRule, kind: BlockKind, pair: (ZoneName, ZoneName)) {
    rule.block == Some(kind) && pair.0 in rule.from && pair.1 in rule.to
  }

  /** The loaded policy holds the file's zones in order and exactly the pairs its rules block. */
  ghost predicate Loaded(raw: seq<RawZone>, rules: seq<RawRule>, p: Policy) {
    && |p.zones| == |raw|
    && (forall i :: 0 <= i < |raw| ==> AddressesParse(raw[i]) && p.zones[i] == ZoneOfRaw(raw[i]))
    && (forall b :: b in p.blockAll <==> Blocks(rules, All, b))
    && (forall b :: b in p.blockIcmp <==> Blocks(rules, Icmp, b))
  }

  // --- Loading ---------------------------------------------------------------------------------

  /** The inner loop: a zone against the ones already loaded. */
  method CheckAgainst(raw: seq<RawZone>, i: nat, zones: seq<Zone>) returns (fault: Option<PolicyError>)
    requires i < |raw| && |zones| == i && AddressesParse(raw[i])
    requires forall k :: 0 <= k < i ==> AddressesParse(raw[k]) && zones[k] == ZoneOfRaw(raw[k])
    ensures fault.Some? ==> Justified(fault.value, raw, []) && ZoneOfFault(fault.value) == Some(i)
    ensures fault.None? <==> forall k :: 0 <= k < i ==> ClearOf(raw[i], raw[k])
  {
    var subnet, mac := raw[i].subnet.value, Lower(raw[i].gatewayMac);
    for j := 0 to i
      invariant forall k :: 0 <= k < j ==> ClearOf(raw[i], raw[k])
    {
      TestsMeanClear(raw, i, j, zones);
      if Overlaps(subnet, zones[j].subnet) {
        return Some(Overlap(i, j));
      }
      if mac == zones[j].gatewayMac {
        return Some(SharedMac(i, j));
      }
    }
    return None;
  }

  /** The two tests find a fault exactly if the zones are not clear of each other, and name it. */
  lemma TestsMeanClear(raw: seq<RawZone>, i: nat, j: nat, zones: seq<Zone>)
    requires j < |zones| == i < |raw| && AddressesParse(raw[i]) && AddressesParse(raw[j])
    requires zones[j] == ZoneOfRaw(raw[j])
    ensures ClearOf(raw[i], raw[j]) <==> !Overlaps(raw[i].subnet.value, zones[j].subnet) && Lower(raw[i].gatewayMac) != zones[j].gatewayMac
    ensures Overlaps(raw[i].subnet.value, zones[j].subnet) ==> Justified(Overlap(i, j), raw, [])
    ensures Lower(raw[i].gatewayMac) == zones[j].gatewayMac ==> Justified(SharedMac(i, j), raw, [])
  {
    OverlapsIsExact(raw[i].subnet.value, zones[j].subnet);
  }

  /** The body of the zone loop. */
  method CheckZone(raw: seq<RawZone>, i: nat, zones: seq<Zone>) returns (fault: Option<PolicyError>)
    requires i < |raw| && |zones| == i
    requires forall k :: 0 <= k < i ==> AddressesParse(raw[k]) && zones[k] == ZoneOfRaw(raw[k])
    ensures fault.Some? ==> Justified(fault.value, raw, []) && ZoneOfFault(fault.value) == Some(i)
    ensures fault.None? <==> ZoneAcceptable(raw[i]) && forall k :: 0 <= k < i ==> ClearOf(raw[i], raw[k])
  {
    var z := raw[i];
    if !AddressesParse(z) {
      return Some(BadSubnetOrGateway(i));
    }
    if !Contains(z.subnet.value, z.gateway.value) {
      return Some(GatewayOutside(i));
    }
    if !IsMac(Lower(z.gatewayMac)) {
      return Some(BadMac(i));
    }
    fault := CheckAgainst(raw, i, zones);
  }

  method LoadZones(raw: seq<RawZone>) returns (r: Result<seq<Zone>, PolicyError>)
    ensures r.Ok? <==> raw != [] && ZonesAcceptable(raw)
    ensures r.Ok? ==> |r.value| == |raw| && forall i :: 0 <= i < |raw| ==> r.value[i] == ZoneOfRaw(raw[i])
    ensures r.Err? ==> Justified(r.error, raw, [])
  {
    var zones: seq<Zone> := [];
    for i := 0 to |raw|
      invariant |zones| == i
      invariant forall k :: 0 <= k < i ==> ZoneAcceptable(raw[k]) && zones[k] == ZoneOfRaw(raw[k])
      invariant forall j, k :: 0 <= k < j < i ==> ClearOf(raw[j], raw[k])
    {
      var fault := CheckZone(raw, i, zones);
      if fault.Some? {
        return Err(fault.value);
      }
      zones := zones + [ZoneOfRaw(raw[i])];
    }
    if zones == [] {
      return Err(NoZones);
    }
    return Ok(zones);
  }

  method CrossProduct(from: seq<ZoneName>, to: seq<ZoneName>) returns (pairs: set<(ZoneName, ZoneName)>)
    ensures forall p :: p in pairs <==> p.0 in from && p.1 in to
  {
    pairs := {};
    for i := 0 to |from|
      invariant forall p :: p in pairs <==> p.0 in from[..i] && p.1 in to
    {
      for j := 0 to |to|
        invariant forall p :: p in pairs <==> (p.0 in from[..i] && p.1 in to) || (p.0 == from[i] && p.1 in to[..j])
      {
        pairs := pairs + {(from[i], to[j])};
        assert to[..j + 1] == to[..j] + [to[j]];
      }
      assert to[..|to|] == to;
      assert from[..i + 1] == from[..i] + [from[i]];
    }
    assert from[..|from|] == from;
  }

  lemma BlocksOfOneMore(rules: seq<RawRule>, i: nat, kind: BlockKind, pair: (ZoneName, ZoneName))
    requires i < |rules|
    ensures Blocks(rules[..i + 1], kind, pair) <==> Blocks(rules[..i], kind, pair) || RuleBlocks(rules[i], kind, pair)
  {
  }

  method LoadRules(raw: seq<RawZone>, rules: seq<RawRule>)
    returns (blocks: map<BlockKind, set<(ZoneName, ZoneName)>>, fault: Option<PolicyError>)
    ensures fault.None? <==> forall i :: 0 <= i < |rules| ==> RuleAcceptable(raw, rules[i])
    ensures fault.Some? ==> Justified(fault.value, raw, rules)
    ensures forall kind: BlockKind :: kind in blocks
    ensures fault.None? ==> forall kind, p :: p in blocks[kind] <==> Blocks(rules, kind, p)
  {
    blocks := map[All := {}, Icmp := {}];
    forall kind: BlockKind ensures kind in blocks && blocks[kind] == {} {
      assert kind == All || kind == Icmp;
    }
    for i := 0 to |rules|
      invariant forall k :: 0 <= k < i ==> RuleAcceptable(raw, rules[k])
      invariant forall kind: BlockKind :: kind in blocks
      invariant forall kind, p :: p in blocks[kind] <==> Blocks(rules[..i], kind, p)
    {
      var rule := rules[i];
      if rule.block.None? {
        return blocks, Some(BadBlock(i));
      }
      if !KnownZones(raw, rule.from) || !KnownZones(raw, rule.to) {
        return blocks, Some(UnknownZones(i));
      }
      var product := CrossProduct(rule.from, rule.to);
      forall kind, p {
        BlocksOfOneMore(rules, i, kind, p);
      }
      blocks := blocks[rule.block.value := blocks[rule.block.value] + product];
    }
    assert rules[..|rules|] == rules;
    return blocks, None;
  }

  method LoadPolicy(raw: seq<RawZone>, rules: seq<RawRule>) returns (r: Result<Policy, PolicyError>)
    requires DistinctNames(raw)
    ensures r.Ok? <==> Acceptable(raw, rules)
    ensures r.Err? ==> Justified(r.error, raw, rules)
    ensures r.Ok? ==> Loaded(raw, rules, r.value)
  {
    var loaded := LoadZones(raw);
    if loaded.Err? {
      return Err(loaded.error);
    }
    var blocks, fault := LoadRules(raw, rules);
    if fault.Some? {
      return Err(fault.value);
    }
    return Ok(Policy(loaded.value, blocks[All], blocks[Icmp]));
  }

  // --- What a loaded policy guarantees ---------------------------------------------------------

  predicate HasZone(zones: seq<Zone>, name: ZoneName) {
    exists i :: 0 <= i < |zones| && zones[i].name == name
  }

  ghost predicate ZonesWellFormed(zones: seq<Zone>) {
    && (forall i :: 0 <= i < |zones| ==> IsNetwork(zones[i].subnet) && Contains(zones[i].subnet, zones[i].gateway))
    && (forall i, j :: 0 <= i < j < |zones| ==>
          && zones[i].name != zones[j].name
          && zones[i].gatewayMac != zones[j].gatewayMac
          && Disjoint(zones[i].subnet, zones[j].subnet))
  }

  ghost predicate WellFormed(p: Policy) {
    && p.zones != [] && ZonesWellFormed(p.zones)
    && (forall b :: b in p.blockAll + p.blockIcmp ==> HasZone(p.zones, b.0) && HasZone(p.zones, b.1))
  }

  /** Acceptance implies pairwise disjoint subnets, distinct gateways and rules over known zones. */
  lemma AcceptedIsWellFormed(raw: seq<RawZone>, rules: seq<RawRule>, p: Policy)
    requires DistinctNames(raw) && Acceptable(raw, rules)
    requires Loaded(raw, rules, p)
    ensures WellFormed(p)
  {
  }

  // --- Classification and verdict --------------------------------------------------------------

  /** The first zone whose subnet holds the address. */
  function ZoneForIp(zones: seq<Zone>, ip: Addr): (name: Option<ZoneName>)
    ensures name.Some? ==> exists i :: 0 <= i < |zones| && zones[i].name == name.value && Contains(zones[i].subnet, ip)
    ensures name.None? ==> forall i :: 0 <= i < |zones| ==> !Contains(zones[i].subnet, ip)
  {
    if zones == [] then None
    else if Contains(zones[0].subnet, ip) then Some(zones[0].name)
    else
      var rest := ZoneForIp(zones[1..], ip);
      assert rest.Some? ==> exists i :: 1 <= i < |zones| && zones[i].name == rest.value && Contains(zones[i].subnet, ip) by {
        if rest.Some? {
          var k :| 0 <= k < |zones[1..]| && zones[1..][k].name == rest.value && Contains(zones[1..][k].subnet, ip);
          assert zones[k + 1] == zones[1..][k];
        }
      }
      assert forall i :: 1 <= i < |zones| ==> zones[i] == zones[1..][i - 1];
      rest
  }

  method ClassifyIp(zones: seq<Zone>, ip: Addr) returns (name: Option<ZoneName>)
    ensures name == ZoneForIp(zones, ip)
  {
    for i := 0 to |zones|
      invariant ZoneForIp(zones, ip) == ZoneForIp(zones[i..], ip)
    {
      if Contains(zones[i].subnet, ip) {
        return Some(zones[i].name);
      }
      assert zones[i..][1..] == zones[i + 1..];
    }
    return None;
  }

  /** `ZONES[name]`. */
  function ZoneNamed(zones: seq<Zone>, name: ZoneName): (z: Zone)
    requires HasZone(zones, name)
    ensures z.name == name && z in zones
  {
    if zones[0].name == name then zones[0]
    else
      assert HasZone(zones[1..], name) by {
        var i :| 0 <= i < |zones| && zones[i].name == name;
        assert zones[1..][i - 1] == zones[i];
      }
      ZoneNamed(zones[1..], name)
  }

  /** The anti-spoofing check. */
  predicate SourceIpValidForZone(zones: seq<Zone>, ip: Addr, ingress: ZoneName) {
    HasZone(zones, ingress) && ip != ZoneNamed(zones, ingress).gateway && ZoneForIp(zones, ip) == Some(ingress)
  }

  predicate FirewallAllowed(p: Policy, src: Option<ZoneName>, dst: Option<ZoneName>, isIcmp: bool) {
    && src.Some? && HasZone(p.zones, src.value) && dst.Some? && HasZone(p.zones, dst.value)
    && (src.value, dst.value) !in p.blockAll
    && !(isIcmp && (src.value, dst.value) in p.blockIcmp)
  }

  // --- Properties ------------------------------------------------------------------------------

  /** In a well-formed policy the first match is the only match. */
  lemma FirstMatchIsUnique(zones: seq<Zone>, ip: Addr, z: Zone)
    requires ZonesWellFormed(zones) && z in zones
    ensures Contains(z.subnet, ip) <==> ZoneForIp(zones, ip) == Some(z.name)
  {
  }

  lemma FoundInAnyOrder(zones: seq<Zone>, shuffled: seq<Zone>, ip: Addr)
    requires ZonesWellFormed(shuffled) && forall z :: z in zones ==> z in shuffled
    requires ZoneForIp(zones, ip).Some?
    ensures ZoneForIp(zones, ip) == ZoneForIp(shuffled, ip)
  {
    var i :| 0 <= i < |zones| && zones[i].name == ZoneForIp(zones, ip).value && Contains(zones[i].subnet, ip);
    assert zones[i] in shuffled;
    FirstMatchIsUnique(shuffled, ip, zones[i]);
  }

  /** So the order the zones are scanned in does not matter. */
  lemma ClassificationIsOrderIndependent(zones: seq<Zone>, shuffled: seq<Zone>, ip: Addr)
    requires ZonesWellFormed(zones) && ZonesWellFormed(shuffled)
    requires forall z :: z in zones <==> z in shuffled
    ensures ZoneForIp(zones, ip) == ZoneForIp(shuffled, ip)
  {
    if ZoneForIp(zones, ip).Some? {
      FoundInAnyOrder(zones, shuffled, ip);
    } else if ZoneForIp(shuffled, ip).Some? {
      FoundInAnyOrder(shuffled, zones, ip);
    }
  }

  /** A gateway address belongs to its own zone and no other, so the one comparison of the
      anti-spoofing check keeps every gateway address out. */
  lemma ValidSourceIsNoGateway(zones: seq<Zone>, ip: Addr, ingress: ZoneName, z: Zone)
    requires ZonesWellFormed(zones) && SourceIpValidForZone(zones, ip, ingress) && z in zones
    ensures ip != z.gateway
  {
  }

  /** The anti-spoofing check accepts exactly the addresses of the zone's subnet that are no zone's gateway. */
  lemma SpoofCheckIsExact(zones: seq<Zone>, ip: Addr, zone: Zone)
    requires ZonesWellFormed(zones) && zone in zones
    ensures SourceIpValidForZone(zones, ip, zone.name) <==> Contains(zone.subnet, ip) && forall z :: z in zones ==> z.gateway != ip
  {
    FirstMatchIsUnique(zones, ip, zone);
    if SourceIpValidForZone(zones, ip, zone.name) {
      forall z | z in zones ensures z.gateway != ip {
        ValidSourceIsNoGateway(zones, ip, zone.name, z);
      }
    }
  }

  lemma ZoneNamesAreUnique(zones: seq<Zone>, y: Zone, z: Zone)
    requires ZonesWellFormed(zones) && y in zones && z in zones && y.name == z.name
    ensures y == z
  {
  }

  lemma GatewayIsInItsZone(zones: seq<Zone>, name: ZoneName)
    requires ZonesWellFormed(zones) && HasZone(zones, name)
    ensures ZoneForIp(zones, ZoneNamed(zones, name).gateway) == Some(name)
  {
  }
}
