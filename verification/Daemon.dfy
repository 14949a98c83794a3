/** tools/gen_policy_header.py and the decision half of cpp/firewall_daemon.cpp: compiling a
    policy into enum and table data, and deciding on that data. */
module Daemon {
  import opened Common
  import opened Ipv4
  import opened Policy

  /** An enumerator of the generated `enum class Zone : uint8_t`; `Unknown` follows the zones. */
  type EnumZone = x: int | 0 <= x < 256

  datatype SubnetZone = SubnetZone(zone: EnumZone, subnet: Subnet)

  /** The generated header, as data. An empty pair table keeps one placeholder row, which its
      count of 0 says is not there. */
  datatype Header = Header(
    unknown: EnumZone,
    zones: seq<SubnetZone>,
    blockAllIp: seq<(EnumZone, EnumZone)>, blockAllIpCount: nat,
    blockIcmp: seq<(EnumZone, EnumZone)>, blockIcmpCount: nat)

  // --- Generating the header -------------------------------------------------------------------

  /** The name pattern of the generator; its `$` also lets one final newline through. */
  predicate IsIdentifier(s: string) {
    var body := if s != [] && s[|s| - 1] == '\n' then s[..|s| - 1] else s;
    && body != [] && !('0' <= body[0] <= '9')
    && forall i :: 0 <= i < |body| ==>
         var c := body[i];
         'A' <= c <= 'Z' || 'a' <= c <= 'z' || '0' <= c <= '9' || c == '_'
  }

  predicate NameUsable(name: ZoneName) {
    IsIdentifier(name) && name != "Unknown"
  }

  /** `order.index(name)`. */
  function IndexOf(zones: seq<Zone>, name: ZoneName): (i: nat)
    requires HasZone(zones, name)
    ensures i < |zones| && zones[i].name == name
    ensures forall j :: 0 <= j < i ==> zones[j].name != name
  {
    if zones[0].name == name then 0
    else
      assert HasZone(zones[1..], name) by {
        var i :| 0 <= i < |zones| && zones[i].name == name;
        assert zones[1..][i - 1] == zones[i];
      }
      1 + IndexOf(zones[1..], name)
  }

  ghost predicate PairsKnown(zones: seq<Zone>, table: set<(ZoneName, ZoneName)>) {
    forall p :: p in table ==> HasZone(zones, p.0) && HasZone(zones, p.1)
  }

  function Encode(zones: seq<Zone>, pair: (ZoneName, ZoneName)): (EnumZone, EnumZone)
    requires |zones| <= 255 && HasZone(zones, pair.0) && HasZone(zones, pair.1)
  {
    (IndexOf(zones, pair.0), IndexOf(zones, pair.1))
  }

  predicate Before(x: (EnumZone, EnumZone), y: (EnumZone, EnumZone)) {
    x.0 < y.0 || (x.0 == y.0 && x.1 < y.1)
  }

  ghost predicate Ordered(rows: seq<(EnumZone, EnumZone)>) {
    forall i, j :: 0 <= i < j < |rows| ==> Before(rows[i], rows[j])
  }

  /** The rows are the encoded pairs of the table, each once, in order. */
  ghost predicate RowsOf(zones: seq<Zone>, table: set<(ZoneName, ZoneName)>, rows: seq<(EnumZone, EnumZone)>)
    requires |zones| <= 255 && PairsKnown(zones, table)
  {
    && Ordered(rows)
    && |rows| == |table|
    && (forall p {:trigger Encode(zones, p)} :: p in table ==> Encode(zones, p) in rows)
    && (forall i :: 0 <= i < |rows| ==> Decodes(zones, table, rows[i]))
  }

  /** The row names two zones whose pair is in the table. */
  predicate Decodes(zones: seq<Zone>, table: set<(ZoneName, ZoneName)>, row: (EnumZone, EnumZone)) {
    row.0 < |zones| && row.1 < |zones| && (zones[row.0].name, zones[row.1].name) in table
  }

  method Insert(rows: seq<(EnumZone, EnumZone)>, row: (EnumZone, EnumZone)) returns (r: seq<(EnumZone, EnumZone)>)
    requires Ordered(rows) && row !in rows
    ensures Ordered(r) && |r| == |rows| + 1
    ensures forall x :: x in r <==> x in rows || x == row
  {
    var k := 0;
    while k < |rows| && Before(rows[k], row)
      invariant 0 <= k <= |rows|
      invariant forall i :: 0 <= i < k ==> Before(rows[i], row)
    {
      k := k + 1;
    }
    forall i | k <= i < |rows|
      ensures Before(row, rows[i])
    {
      assert rows[k] in rows && (i > k ==> Before(rows[k], rows[i]));
    }
    assert rows == rows[..k] + rows[k..];
    r := rows[..k] + [row] + rows[k..];
  }

  lemma NewPairIsNotARow(zones: seq<Zone>, done: set<(ZoneName, ZoneName)>, rows: seq<(EnumZone, EnumZone)>, p: (ZoneName, ZoneName))
    requires |zones| <= 255 && PairsKnown(zones, done + {p}) && RowsOf(zones, done, rows) && p !in done
    ensures HasZone(zones, p.0) && HasZone(zones, p.1) && Encode(zones, p) !in rows
  {
  }

  lemma RowsOfOneMore(zones: seq<Zone>, done: set<(ZoneName, ZoneName)>, rows: seq<(EnumZone, EnumZone)>,
                      p: (ZoneName, ZoneName), longer: seq<(EnumZone, EnumZone)>)
    requires |zones| <= 255 && PairsKnown(zones, done + {p}) && RowsOf(zones, done, rows) && p !in done
    requires HasZone(zones, p.0) && HasZone(zones, p.1)
    requires Ordered(longer) && |longer| == |rows| + 1
    requires forall x :: x in longer <==> x in rows || x == Encode(zones, p)
    ensures RowsOf(zones, done + {p}, longer)
  {
    forall i | 0 <= i < |longer| ensures Decodes(zones, done + {p}, longer[i]) {
      assert longer[i] in longer;
      if longer[i] != Encode(zones, p) {
        var j :| 0 <= j < |rows| && rows[j] == longer[i];
        assert Decodes(zones, done, rows[j]);
      }
    }
    forall q | q in done + {p} ensures Encode(zones, q) in longer {
    }
  }

  /** The inner function `pairs`: the table as sorted rows, or one placeholder row when empty. */
  method Pairs(zones: seq<Zone>, table: set<(ZoneName, ZoneName)>)
    returns (rows: seq<(EnumZone, EnumZone)>, count: nat)
    requires |zones| <= 255 && PairsKnown(zones, table)
    ensures count <= |rows| && |rows| > 0 && RowsOf(zones, table, rows[..count])
  {
    var sorted: seq<(EnumZone, EnumZone)> := [];
    var done: set<(ZoneName, ZoneName)> := {};
    while table - done != {}
      invariant done <= table && RowsOf(zones, done, sorted)
      decreases table - done
    {
      var p :| p in table - done;
      assert done + {p} <= table;
      NewPairIsNotARow(zones, done, sorted, p);
      var longer := Insert(sorted, Encode(zones, p));
      RowsOfOneMore(zones, done, sorted, p, longer);
      sorted, done := longer, done + {p};
    }
    assert done == table;
    count := |sorted|;
    rows := if count > 0 then sorted else [(0, 0)];
    assert rows[..count] == sorted;
  }

  /** What a header must hold to be the compilation of a policy. */
  ghost predicate Compiles(p: Policy, h: Header)
    requires |p.zones| <= 255 && PairsKnown(p.zones, p.blockAll) && PairsKnown(p.zones, p.blockIcmp)
  {
    && h.unknown == |p.zones|
    && |h.zones| == |p.zones|
    && (forall i :: 0 <= i < |p.zones| ==> h.zones[i] == SubnetZone(i, p.zones[i].subnet))
    && h.blockAllIpCount <= |h.blockAllIp| && RowsOf(p.zones, p.blockAll, h.blockAllIp[..h.blockAllIpCount])
    && h.blockIcmpCount <= |h.blockIcmp| && RowsOf(p.zones, p.blockIcmp, h.blockIcmp[..h.blockIcmpCount])
    && |h.blockAllIp| > 0 && |h.blockIcmp| > 0
  }

  /** Err names the first zone whose name cannot be an enumerator. */
  method Render(p: Policy) returns (r: Result<Header, nat>)
    requires WellFormed(p) && |p.zones| <= 255
    ensures r.Ok? <==> forall i :: 0 <= i < |p.zones| ==> NameUsable(p.zones[i].name)
    ensures r.Ok? ==> Compiles(p, r.value)
    ensures r.Err? ==> r.error < |p.zones| && !NameUsable(p.zones[r.error].name)
                       && forall i :: 0 <= i < r.error ==> NameUsable(p.zones[i].name)
  {
    for i := 0 to |p.zones|
      invariant forall k :: 0 <= k < i ==> NameUsable(p.zones[k].name)
    {
      if !NameUsable(p.zones[i].name) {
        return Err(i);
      }
    }
    var rows := seq(|p.zones|, i requires 0 <= i < |p.zones| => SubnetZone(i, p.zones[i].subnet));
    var blockAll, allCount := Pairs(p.zones, p.blockAll);
    var blockIcmp, icmpCount := Pairs(p.zones, p.blockIcmp);
    return Ok(Header(|p.zones|, rows, blockAll, allCount, blockIcmp, icmpCount));
  }

  // --- Deciding --------------------------------------------------------------------------------

  const DENY := 0
  const ALLOW := 1
  const RULE_NONE := 0
  const RULE_BLOCK_ALL_IP := 1
  const RULE_BLOCK_ICMP := 2
  const RULE_UNKNOWN_ZONE := 3
  const IPPROTO_ICMP := 1

  datatype Response = Response(verdict: Byte, ruleId: Byte)

  predicate HasPair(table: seq<(EnumZone, EnumZone)>, count: nat, src: EnumZone, dst: EnumZone)
    requires count <= |table|
  {
    (src, dst) in table[..count]
  }

  method ContainsPair(table: seq<(EnumZone, EnumZone)>, count: nat, src: EnumZone, dst: EnumZone) returns (found: bool)
    requires count <= |table|
    ensures found == HasPair(table, count, src, dst)
  {
    for i := 0 to count
      invariant (src, dst) !in table[..i]
    {
      if table[i].0 == src && table[i].1 == dst {
        assert table[..count][i] == (src, dst);
        return true;
      }
      assert table[..i + 1] == table[..i] + [table[i]];
    }
    return false;
  }

  ghost predicate TablesReadable(h: Header) {
    && h.blockAllIpCount <= |h.blockAllIp| && h.blockIcmpCount <= |h.blockIcmp|
    && forall i :: 0 <= i < |h.zones| ==> h.zones[i].subnet.prefix <= 32
  }

  function Classify(h: Header, k: nat, ip: Addr): EnumZone
    requires TablesReadable(h) && k <= |h.zones|
    decreases |h.zones| - k
  {
    if k == |h.zones| then h.unknown
    else if MaskEqual(h.zones[k].subnet, ip) then h.zones[k].zone
    else Classify(h, k + 1, ip)
  }

  method ClassifyZone(h: Header, ip: Addr) returns (zone: EnumZone)
    requires TablesReadable(h)
    ensures zone == Classify(h, 0, ip)
  {
    for k := 0 to |h.zones|
      invariant Classify(h, 0, ip) == Classify(h, k, ip)
    {
      var mask := ShiftMask(h.zones[k].subnet.prefix);
      if BitAnd(ip, mask) == BitAnd(h.zones[k].subnet.network, mask) {
        return h.zones[k].zone;
      }
    }
    return h.unknown;
  }

  function Decision(h: Header, src: EnumZone, dst: EnumZone, isIcmp: bool): Response
    requires TablesReadable(h)
  {
    if src == h.unknown || dst == h.unknown then Response(DENY, RULE_UNKNOWN_ZONE)
    else if HasPair(h.blockAllIp, h.blockAllIpCount, src, dst) then Response(DENY, RULE_BLOCK_ALL_IP)
    else if isIcmp && HasPair(h.blockIcmp, h.blockIcmpCount, src, dst) then Response(DENY, RULE_BLOCK_ICMP)
    else Response(ALLOW, RULE_NONE)
  }

  method Decide(h: Header, src: EnumZone, dst: EnumZone, isIcmp: bool) returns (r: Response)
    requires TablesReadable(h)
    ensures r == Decision(h, src, dst, isIcmp)
  {
    if src == h.unknown || dst == h.unknown {
      return Response(DENY, RULE_UNKNOWN_ZONE);
    }
    var blocked := ContainsPair(h.blockAllIp, h.blockAllIpCount, src, dst);
    if blocked {
      return Response(DENY, RULE_BLOCK_ALL_IP);
    }
    if isIcmp {
      blocked := ContainsPair(h.blockIcmp, h.blockIcmpCount, src, dst);
      if blocked {
        return Response(DENY, RULE_BLOCK_ICMP);
      }
    }
    return Response(ALLOW, RULE_NONE);
  }

  /** The daemon's answer for one request: classify both addresses, then decide. */
  function Answer(h: Header, src: Addr, dst: Addr, protocol: nat): Response
    requires TablesReadable(h)
  {
    Decision(h, Classify(h, 0, src), Classify(h, 0, dst), protocol == IPPROTO_ICMP)
  }

  // --- Compilation is correct ------------------------------------------------------------------

  /** The enumerator that stands for a zone. */
  function EnumOf(p: Policy, name: Option<ZoneName>): EnumZone
    requires |p.zones| <= 255 && (name.Some? ==> HasZone(p.zones, name.value))
  {
    if name.None? then |p.zones| else IndexOf(p.zones, name.value)
  }

  lemma ClassifyRow(p: Policy, h: Header, k: nat, ip: Addr)
    requires WellFormed(p) && |p.zones| <= 255 && Compiles(p, h) && k < |p.zones| && TablesReadable(h)
    ensures Classify(h, k, ip) == if Contains(p.zones[k].subnet, ip) then k else Classify(h, k + 1, ip)
  {
    assert h.zones[k] == SubnetZone(k, p.zones[k].subnet);
    MaskEqualIsContains(p.zones[k].subnet, ip);
  }

  /** Mask tests over the compiled table pick the enumerator of the zone that subnet containment
      picks over the policy. */
  lemma {:induction false} ClassifyAgrees(p: Policy, h: Header, k: nat, ip: Addr)
    requires WellFormed(p) && |p.zones| <= 255 && Compiles(p, h) && k <= |p.zones| && TablesReadable(h)
    ensures var name := ZoneForIp(p.zones[k..], ip); name.Some? ==> HasZone(p.zones, name.value)
    ensures Classify(h, k, ip) == EnumOf(p, ZoneForIp(p.zones[k..], ip))
    decreases |p.zones| - k
  {
    if k < |p.zones| {
      ClassifyRow(p, h, k, ip);
      ClassifyAgrees(p, h, k + 1, ip);
    }
  }

  lemma RowsMeanTheTable(p: Policy, table: set<(ZoneName, ZoneName)>, rows: seq<(EnumZone, EnumZone)>, pair: (ZoneName, ZoneName))
    requires |p.zones| <= 255 && PairsKnown(p.zones, table) && RowsOf(p.zones, table, rows)
    requires HasZone(p.zones, pair.0) && HasZone(p.zones, pair.1)
    ensures Encode(p.zones, pair) in rows <==> pair in table
  {
  }

  /** The reason the policy itself gives, in the order the rules are checked. */
  function FirstReason(p: Policy, src: Option<ZoneName>, dst: Option<ZoneName>, isIcmp: bool): Byte {
    if src.None? || dst.None? then RULE_UNKNOWN_ZONE
    else if (src.value, dst.value) in p.blockAll then RULE_BLOCK_ALL_IP
    else if isIcmp && (src.value, dst.value) in p.blockIcmp then RULE_BLOCK_ICMP
    else RULE_NONE
  }

  lemma DecisionAgrees(p: Policy, h: Header, from: Option<ZoneName>, to: Option<ZoneName>, isIcmp: bool)
    requires WellFormed(p) && |p.zones| <= 255 && Compiles(p, h) && TablesReadable(h)
    requires from.Some? ==> HasZone(p.zones, from.value)
    requires to.Some? ==> HasZone(p.zones, to.value)
    ensures Decision(h, EnumOf(p, from), EnumOf(p, to), isIcmp)
            == Response(if FirewallAllowed(p, from, to, isIcmp) then ALLOW else DENY, FirstReason(p, from, to, isIcmp))
  {
    if from.Some? && to.Some? {
      RowsMeanTheTable(p, p.blockAll, h.blockAllIp[..h.blockAllIpCount], (from.value, to.value));
      RowsMeanTheTable(p, p.blockIcmp, h.blockIcmp[..h.blockIcmpCount], (from.value, to.value));
    }
  }

  /** For all addresses and protocol numbers, the compiled tables give the policy's verdict and
      name its first matching reason. */
  lemma CompilationIsCorrect(p: Policy, h: Header, src: Addr, dst: Addr, protocol: nat)
    requires WellFormed(p) && |p.zones| <= 255 && Compiles(p, h)
    ensures TablesReadable(h)
    ensures var from, to, isIcmp := ZoneForIp(p.zones, src), ZoneForIp(p.zones, dst), protocol == IPPROTO_ICMP;
            Answer(h, src, dst, protocol)
            == Response(if FirewallAllowed(p, from, to, isIcmp) then ALLOW else DENY, FirstReason(p, from, to, isIcmp))
  {
    assert p.zones[0..] == p.zones;
    ClassifyAgrees(p, h, 0, src);
    ClassifyAgrees(p, h, 0, dst);
    DecisionAgrees(p, h, ZoneForIp(p.zones, src), ZoneForIp(p.zones, dst), protocol == IPPROTO_ICMP);
  }
}
