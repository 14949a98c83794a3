/** Isolation is exact: two zones are kept apart in every run if and only if the policy blocks both
    directions. Blocking one direction only is not enough, because replies to the other pass. */
module Exactness {
  import opened Common
  import opened Ipv4
  import opened Policy
  import opened ConnTrack
  import opened OpenFlow
  import opened RouterModel
  import opened RouterInv
  import opened DataPlane
  import opened Isolation
  import opened KeepAlive
  import opened Runs

  /** No switch in any run sends an ICMP packet (if `icmp`), or an IP packet of any other protocol (if
      not), from zone `a` to zone `b`. */
  ghost predicate NeverSends(cfg: Config, a: ZoneName, b: ZoneName, icmp: bool) {
    forall late: Time, steps: seq<Step>, nets: seq<Net>, i: nat, k: nat ::
      InRun(cfg, steps, nets, late, i) && k < |nets[i].trace| ==> !Crosses(cfg, nets[i].trace[k].frame, a, b, icmp)
  }

  predicate Crosses(cfg: Config, f: Frame, a: ZoneName, b: ZoneName, icmp: bool) {
    && f.payload.Ip? && (f.payload.ip.proto == ConnTrack.IPPROTO_ICMP <==> icmp)
    && cfg.zoneOf(f.payload.ip.src) == Some(a) && cfg.zoneOf(f.payload.ip.dst) == Some(b)
  }

  // --- A run that crosses ----------------------------------------------------------------------

  /** A TCP connection, or a ping. */
  function FlowBetween(x: Addr, y: Addr, icmp: bool): Flow {
    Flow(x, y, if icmp then ConnTrack.IPPROTO_ICMP else IPPROTO_TCP, 1, 1)
  }

  const ANYTHING: Comers := (ip: IpPacket) => true

  /** A packet that passes crosses: it is the last one the core sends. */
  lemma PassedPacketCrosses(cfg: Config, n: Net, n': Net, ip: IpPacket, port: Port, a: ZoneName, b: ZoneName, now: Time)
    requires b in cfg.gateways && Crossing(cfg, n.router, ip, port, a, b) && Seen(cfg, n, n', ip, port, a, b, now)
    requires WouldPass(cfg, n.router.conns, ip, a, b, now)
    ensures n'.trace != [] && Crosses(cfg, n'.trace[|n'.trace| - 1].frame, a, b, ip.proto == ConnTrack.IPPROTO_ICMP)
  {
  }

  /** A reply passes, because an allowed opener was just seen. */
  lemma ReplyWouldPass(cfg: Config, n: Net, n': Net, opener: IpPacket, reply: IpPacket, port: Port, a: ZoneName, b: ZoneName, now: Time)
    requires opener.dst in n.router.ipToLoc && a in cfg.gateways && opener.ttl > 0 && Seen(cfg, n, n', opener, port, b, a, now)
    requires CanBe(opener, true) && CanBe(reply, false) && FlowOf(reply).Reversed() == FlowOf(opener) && Allowed(cfg, opener, b, a)
    ensures WouldPass(cfg, n'.router.conns, reply, a, b, now)
  {
  }

  /** The only rule at the core takes what the opener's host sends. */
  lemma RulesOfOthersTakeNothing(cfg: Config, n: Net, n': Net, opener: IpPacket, ip: IpPacket, port: Port, q: Port, a: ZoneName, b: ZoneName, now: Time)
    requires opener.dst in n.router.ipToLoc && a in cfg.gateways && opener.ttl > 0 && Seen(cfg, n, n', opener, port, b, a, now)
    requires TableOf(n, cfg.maps.coreDpid) == map[] && opener.src != ip.src
    ensures NoneTakes(cfg, n', ip, q)
  {
  }

  /** If either direction is allowed, some run sends from `a` to `b`: directly, or as the reply to a
      connection opened from `b`. */
  lemma OneOpenDirectionIsEnough(cfg: Config, x: Addr, y: Addr, a: ZoneName, b: ZoneName, p: Port, q: Port, icmp: bool)
    returns (steps: seq<Step>, nets: seq<Net>)
    requires ConfigOk(cfg) && HostAt(cfg, x, a, p) && HostAt(cfg, y, b, q) && a != b
    requires cfg.allowed(a, b, icmp) || cfg.allowed(b, a, icmp)
    ensures IsRun(cfg, steps, nets, 0.0)
    ensures var n := nets[|steps|]; n.trace != [] && Crosses(cfg, n.trace[|n.trace| - 1].frame, a, b, icmp)
  {
    var s0, n0 := Prologue(cfg, ANYTHING, x, y, a, b, p, q);
    var n := n0[|s0|];
    if cfg.allowed(a, b, icmp) {
      var ip := PacketOf(FlowBetween(x, y, icmp), true);
      steps, nets := ThenSeen(cfg, s0, n0, ANYTHING, ip, p, a, b, 0.0, 0.0);
      PassedPacketCrosses(cfg, n, nets[|steps|], ip, p, a, b, 0.0);
    } else {
      steps, nets := RepliedRun(cfg, s0, n0, x, y, a, b, p, q, icmp);
    }
  }

  lemma RepliedRun(cfg: Config, s0: seq<Step>, n0: seq<Net>, x: Addr, y: Addr, a: ZoneName, b: ZoneName, p: Port, q: Port, icmp: bool)
    returns (steps: seq<Step>, nets: seq<Net>)
    requires ConfigOk(cfg) && HostAt(cfg, x, a, p) && HostAt(cfg, y, b, q) && a != b && cfg.allowed(b, a, icmp)
    requires Fair(cfg, s0, n0, ANYTHING) && Quiet(cfg, n0[|s0|]) && x in n0[|s0|].router.ipToLoc && y in n0[|s0|].router.ipToLoc
    ensures IsRun(cfg, steps, nets, 0.0)
    ensures var n := nets[|steps|]; n.trace != [] && Crosses(cfg, n.trace[|n.trace| - 1].frame, a, b, icmp)
  {
    var reply := PacketOf(FlowBetween(x, y, icmp), false);
    var s1, n1 := OpenedRun(cfg, s0, n0, x, y, a, b, p, q, icmp);
    steps, nets := ThenSeen(cfg, s1, n1, ANYTHING, reply, p, a, b, 0.0, 0.0);
    PassedPacketCrosses(cfg, n1[|s1|], nets[|steps|], reply, p, a, b, 0.0);
  }

  /** The connection is opened from `y`: its reply would pass, and no rule takes it. */
  lemma OpenedRun(cfg: Config, s0: seq<Step>, n0: seq<Net>, x: Addr, y: Addr, a: ZoneName, b: ZoneName, p: Port, q: Port, icmp: bool)
    returns (steps: seq<Step>, nets: seq<Net>)
    requires ConfigOk(cfg) && HostAt(cfg, x, a, p) && HostAt(cfg, y, b, q) && a != b && cfg.allowed(b, a, icmp)
    requires Fair(cfg, s0, n0, ANYTHING) && Quiet(cfg, n0[|s0|]) && x in n0[|s0|].router.ipToLoc && y in n0[|s0|].router.ipToLoc
    ensures Fair(cfg, steps, nets, ANYTHING)
    ensures var n, reply := nets[|steps|], PacketOf(FlowBetween(x, y, icmp), false);
            && Calm(cfg, n, 0.0) && Crossing(cfg, n.router, reply, p, a, b)
            && WouldPass(cfg, n.router.conns, reply, a, b, 0.0) && NoneTakes(cfg, n.(now := 0.0), reply, p)
  {
    var n, opener, reply := n0[|s0|], PacketOf(FlowBetween(y, x, icmp), true), PacketOf(FlowBetween(x, y, icmp), false);
    PacketIsOfItsFlow(FlowBetween(y, x, icmp), true);
    PacketIsOfItsFlow(FlowBetween(x, y, icmp), false);
    steps, nets := ThenSeen(cfg, s0, n0, ANYTHING, opener, q, b, a, 0.0, 0.0);
    ReplyWouldPass(cfg, n, nets[|steps|], opener, reply, q, a, b, 0.0);
    RulesOfOthersTakeNothing(cfg, n, nets[|steps|], opener, reply, q, p, a, b, 0.0);
  }

  /** For two different zones that each have a host address and a core port: no run ever sends ICMP,
      or anything but ICMP, from the one to the other, if and only if the policy blocks that kind in
      both directions. */
  lemma IsolatedIffBlockedBothWays(cfg: Config, x: Addr, y: Addr, a: ZoneName, b: ZoneName, p: Port, q: Port, icmp: bool)
    requires ConfigOk(cfg) && DaemonAgrees(cfg) && HostAt(cfg, x, a, p) && HostAt(cfg, y, b, q) && a != b
    ensures NeverSends(cfg, a, b, icmp) <==> !cfg.allowed(a, b, icmp) && !cfg.allowed(b, a, icmp)
  {
    if cfg.allowed(a, b, icmp) || cfg.allowed(b, a, icmp) {
      var steps, nets := OneOpenDirectionIsEnough(cfg, x, y, a, b, p, q, icmp);
      assert InRun(cfg, steps, nets, 0.0, |steps|);
    } else {
      forall late: Time, steps: seq<Step>, nets: seq<Net>, i: nat, k: nat | InRun(cfg, steps, nets, late, i) && k < |nets[i].trace|
        ensures !Crosses(cfg, nets[i].trace[k].frame, a, b, icmp)
      {
        if Crosses(cfg, nets[i].trace[k].frame, a, b, icmp) {
          BlockedBothWaysMeansIsolated(cfg, steps, nets, late, i, k, a, b);
        }
      }
    }
  }
}
