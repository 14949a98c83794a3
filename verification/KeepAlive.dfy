/** The contract between rule timeouts and connection tracking: switches hide most packets of a
    connection from the controller, and the connection stays tracked all the same. */
module KeepAlive {
  import opened Common
  import opened Policy
  import opened ConnTrack
  import opened ConnHistory
  import opened OpenFlow
  import opened RouterModel
  import opened RouterInv
  import opened RouterPacketIn
  import opened RouterEffects
  import opened DataPlane
  import opened Isolation
  import opened Floods
  import opened RunLog

  // --- Tracked packets -------------------------------------------------------------------------

  /** A packet that can open its connection (if `opens`), or answer one (if not): TCP and UDP packets
      can do both, of ICMP an echo request the one and an echo reply the other. */
  predicate CanBe(ip: IpPacket, opens: bool) {
    TrackedOf(ip).Some? && if opens then TrackedOf(ip).value.mayOpen else TrackedOf(ip).value.mayReply
  }

  /** The flow a packet is tracked under: with its ports, or with its echo identifier for both. */
  function FlowOf(ip: IpPacket): Flow {
    if ip.proto == IPPROTO_ICMP then Flow(ip.src, ip.dst, ip.proto, ip.echoId, ip.echoId)
    else Flow(ip.src, ip.dst, ip.proto, ip.tpSrc, ip.tpDst)
  }

  // --- Entries last ----------------------------------------------------------------------------

  /** An entry that will not be idle at `t` survives everything that happens before. */
  lemma {:induction false} LiveEntriesLast(events: seq<Event>, idle: Time, k: nat, flow: Flow, t: Time)
    requires WellTimed(events) && NotBefore(events, t) && k <= |events|
    requires Alive(Run(events[..k], idle), idle, flow, t)
    ensures Alive(Run(events, idle), idle, flow, t)
    decreases |events| - k
  {
    if k == |events| {
      assert events[..k] == events;
    } else {
      var longer := events[..k + 1];
      assert longer[..k] == events[..k] && longer[k] == events[k];
      PrefixIsTimed(events, k);
      StampsArePast(events[..k], idle, events[k].t);
      StepKeepsLive(Run(events[..k], idle), idle, events[k], flow, t);
      LiveEntriesLast(events, idle, k + 1, flow, t);
    }
  }

  /** The entry a passed check of this packet leaves: its own direction if the policy allows it, else
      the direction it answers. */
  function EntryKey(allowed: bool, ip: IpPacket): Flow {
    if allowed then FlowOf(ip) else FlowOf(ip).Reversed()
  }

  /** A passed check of a tracked packet keeps its entry alive for the idle timeout after its stamp. */
  lemma PassedChecksLast(cfg: Config, log: seq<Obs>, conns: Table, now: Time, j: nat, t: Time)
    requires LogOk(cfg, log, conns, now) && j < |log| && Passes(log[j]) && CanBe(log[j].ip, log[j].allowed)
    requires now <= t && t - Stamp(EventOf(log[j])) < IDLE_TIMEOUT
    ensures Alive(conns, IDLE_TIMEOUT, EntryKey(log[j].allowed, log[j].ip), t)
  {
    var events, o := EventsOf(log), log[j];
    var key := EntryKey(o.allowed, o.ip);
    assert CheckOk(cfg, log, j);
    assert EventsOf(log[..j]) == events[..j];
    assert events[..j + 1][..j] == events[..j] && events[..j + 1][j] == EventOf(o);
    assert Run(events[..j + 1], IDLE_TIMEOUT) == ConnHistory.Step(Run(events[..j], IDLE_TIMEOUT), IDLE_TIMEOUT, EventOf(o));
    LiveEntriesLast(events, IDLE_TIMEOUT, j + 1, key, t);
  }

  /** A stamp either stems from the first `k` events or is no older than the ones after them. */
  lemma {:induction false} StampIsKeptOrNew(events: seq<Event>, idle: Time, k: nat, flow: Flow, since: Time)
    requires WellTimed(events) && k <= |events| && flow in Run(events, idle)
    requires forall l :: k <= l < |events| ==> events[l].t >= since
    ensures || (flow in Run(events[..k], idle) && Run(events[..k], idle)[flow] == Run(events, idle)[flow])
            || Run(events, idle)[flow] >= since
  {
    if k == |events| {
      assert events[..k] == events;
    } else {
      var n := |events| - 1;
      var prefix := events[..n];
      assert prefix[..k] == events[..k];
      assert events[n].t >= since && events[n].u >= events[n].t;
      if flow in Run(prefix, idle) && Run(prefix, idle)[flow] == Run(events, idle)[flow] {
        StampIsKeptOrNew(prefix, idle, k, flow, since);
      }
    }
  }

  /** An entry that is alive although a check has refused its replies was stamped after the readings of
      that check. */
  lemma AliveAfterRefusal(cfg: Config, log: seq<Obs>, conns: Table, now: Time, j: nat, t: Time)
    requires LogOk(cfg, log, conns, now) && j < |log| && log[j].Check? && log[j].verdict == Drop && CanBe(log[j].ip, false)
    requires now <= t && Alive(conns, IDLE_TIMEOUT, FlowOf(log[j].ip).Reversed(), t)
    ensures conns[FlowOf(log[j].ip).Reversed()] >= log[j].s
  {
    var events, o := EventsOf(log), log[j];
    var key := FlowOf(o.ip).Reversed();
    assert CheckOk(cfg, log, j);
    assert EventsOf(log[..j]) == events[..j] && events[j] == EventOf(o);
    assert events[..j + 1][..j] == events[..j] && events[..j + 1][j] == EventOf(o);
    assert Run(events[..j + 1], IDLE_TIMEOUT) == Run(events[..j], IDLE_TIMEOUT);
    StampIsKeptOrNew(events, IDLE_TIMEOUT, j + 1, key, o.s);
  }

  /** An entry that a later state will still find fresh enough is there in that state. */
  lemma AliveLater(cfg: Config, steps: seq<DataPlane.Step>, nets: seq<Net>, late: Time, k: nat, i: nat, flow: Flow, t: Time)
    requires InRun(cfg, steps, nets, late, i) && k <= i && nets[i].now <= t
    requires Alive(nets[k].router.conns, IDLE_TIMEOUT, flow, t)
    ensures Alive(nets[i].router.conns, IDLE_TIMEOUT, flow, t)
  {
    LogsAndClocksGrow(cfg, steps, nets, late, k, i);
    RecordsAreOk(cfg, steps, nets, late, k);
    RecordsAreOk(cfg, steps, nets, late, i);
    var events, n := EventsOf(nets[i].router.log), |nets[k].router.log|;
    assert events[..n] == EventsOf(nets[k].router.log);
    LiveEntriesLast(events, IDLE_TIMEOUT, n, flow, t);
  }

  // --- Arrivals --------------------------------------------------------------------------------

  /** An IP packet with an honest source enters the network on its way to another zone's hosts. */
  predicate HonestArrival(cfg: Config, s: DataPlane.Step) {
    && s.Arrive? && s.complete && !IsLeafUplink(cfg, s.dpid, s.port) && s.frame.payload.Ip?
    && (var ip, src := s.frame.payload.ip, ZoneOfPort(cfg, s.dpid, s.port);
        && src.Some? && SourceValid(cfg, ip.src, src.value)
        && !IsGateway(cfg, ip.dst) && cfg.zoneOf(ip.dst).Some? && cfg.zoneOf(ip.dst) != src)
  }

  predicate SameHosts(ip: IpPacket, flow: Flow) {
    ip.src == flow.src && ip.dst == flow.dst && ip.proto == flow.proto
  }

  /** An echo packet of the flow's hosts and direction, but of another ping. */
  predicate IsOtherEcho(ip: IpPacket, flow: Flow, opens: bool) {
    SameHosts(ip, flow) && ip.parsed && ip.proto == IPPROTO_ICMP && ip.tpSrc == EchoType(opens) && ip.echoId != flow.sport
  }

  /** A packet whose rule can take packets of the flow, although a check of it says nothing of the
      flow: POX could not parse its transport header, or it belongs to another ping. */
  predicate Hides(ip: IpPacket, flow: Flow, opens: bool) {
    (SameHosts(ip, flow) && !ip.parsed) || IsOtherEcho(ip, flow, opens)
  }

  predicate ToController(s: DataPlane.Step) {
    s.Arrive? && s.via.None? && s.frame.payload.Ip?
  }

  /** No such packet comes to the controller. */
  ghost predicate NoneHides(steps: seq<DataPlane.Step>, flow: Flow, opens: bool) {
    forall q :: 0 <= q < |steps| && ToController(steps[q]) ==> !Hides(steps[q].frame.payload.ip, flow, opens)
  }

  /** A cross-zone packet enters the network and is passed on, by a rule or by a check. */
  ghost predicate GetsThrough(cfg: Config, n: Net, s: DataPlane.Step, n': Net) {
    && s.Arrive? && !IsLeafUplink(cfg, s.dpid, s.port) && s.frame.payload.Ip?
    && !SameZone(cfg, s.frame.payload.ip.src, s.frame.payload.ip.dst)
    && match s.via
       case Some(m) => m in TableOf(n, s.dpid) && TableOf(n, s.dpid)[m].actions != []
       case None => |n'.router.log| > |n.router.log| && Passes(n'.router.log[|n.router.log|])
  }

  // --- Behind every rule is a check ------------------------------------------------------------

  /** A check of a packet of exactly this flow, that can open it or answer for it. */
  ghost predicate CheckOf(log: seq<Obs>, j: nat, flow: Flow, opens: bool) {
    j < |log| && log[j].Check? && CanBe(log[j].ip, opens) && FlowOf(log[j].ip) == flow
  }

  /** A cross-zone packet that enters the network and is taken by a rule. */
  ghost predicate TakenAcross(cfg: Config, s: DataPlane.Step) {
    && s.Arrive? && s.via.Some? && !IsLeafUplink(cfg, s.dpid, s.port) && s.frame.payload.Ip?
    && !SameZone(cfg, s.frame.payload.ip.src, s.frame.payload.ip.dst)
  }

  /** The rule was made when a packet its match covers was checked, and is young: it drops if the check
      refused, and passes on if not. */
  lemma RuleHasItsCheck(cfg: Config, n: Net, s: DataPlane.Step, late: Time) returns (j: nat)
    requires Inv(cfg, n, late) && Enabled(cfg, n, s, late) && TakenAcross(cfg, s)
    ensures s.via.value in TableOf(n, s.dpid) && j < |n.router.log|
    ensures var o := n.router.log[j];
            && o.Check? && CoversMatch(o.ip, s.via.value) && (o.verdict == Drop <==> TableOf(n, s.dpid)[s.via.value].actions == [])
            && n.now - o.u < if o.verdict == Drop then DROP_FLOW_HARD_TIMEOUT else ROUTED_FLOW_HARD_TIMEOUT
  {
    var log, rule := n.router.log, TableOf(n, s.dpid)[s.via.value];
    assert RuleOk(cfg, log, rule.installed, s.dpid, s.via.value, rule.hard, rule.actions);
    var o := CheckBehind(log, s.via.value, rule);
    j :| 0 <= j < |log| && log[j] == o;
  }

  lemma UnhiddenCheckIsOfTheFlow(steps: seq<DataPlane.Step>, nets: seq<Net>, k: nat, j: nat, m: Match, f: Frame, port: Port, opens: bool)
    requires k < |nets| == |steps| + 1 && EveryCheckMade(steps, nets, k) && j < |nets[k].router.log| && nets[k].router.log[j].Check?
    requires f.payload.Ip? && CanBe(f.payload.ip, opens) && NoneHides(steps, FlowOf(f.payload.ip), opens)
    requires CoversMatch(nets[k].router.log[j].ip, m) && Matches(m, f, port)
    ensures CheckOf(nets[k].router.log, j, FlowOf(f.payload.ip), opens)
  {
    var o := nets[k].router.log[j];
    var q :| q < k && MadeBy(nets, steps, q, o);
    assert ToController(steps[q]);
  }

  /** If nothing came that hides the flow, that check was of the very flow of the packet. */
  lemma RuleWasChecked(cfg: Config, steps: seq<DataPlane.Step>, nets: seq<Net>, late: Time, k: nat, opens: bool) returns (j: nat)
    requires InRun(cfg, steps, nets, late, k) && k < |steps| && TakenAcross(cfg, steps[k]) && CanBe(steps[k].frame.payload.ip, opens)
    requires NoneHides(steps, FlowOf(steps[k].frame.payload.ip), opens)
    ensures CheckOf(nets[k].router.log, j, FlowOf(steps[k].frame.payload.ip), opens)
    ensures var o := nets[k].router.log[j];
            && steps[k].via.value in TableOf(nets[k], steps[k].dpid)
            && (o.verdict == Drop <==> TableOf(nets[k], steps[k].dpid)[steps[k].via.value].actions == [])
            && nets[k].now - o.u < if o.verdict == Drop then DROP_FLOW_HARD_TIMEOUT else ROUTED_FLOW_HARD_TIMEOUT
  {
    RunKeepsInv(cfg, steps, nets, late, k);
    assert Follows(cfg, nets[k], steps[k], nets[k + 1], late);
    j := RuleHasItsCheck(cfg, nets[k], steps[k], late);
    EveryCheckHasItsPacket(cfg, steps, nets, late, k);
    UnhiddenCheckIsOfTheFlow(steps, nets, k, j, steps[k].via.value, steps[k].frame, steps[k].port, opens);
  }

  lemma CheckBehind(log: seq<Obs>, m: Match, rule: Rule) returns (o: Obs)
    requires (rule.actions == [] && MatchRefused(log, m, rule.installed)) || (rule.actions != [] && MatchVouched(log, m, rule.installed))
    ensures o in log && o.Check? && CoversMatch(o.ip, m) && o.u == rule.installed && (o.verdict == Drop <==> rule.actions == [])
  {
    if rule.actions == [] {
      o :| o in log && o.Check? && o.verdict == Drop && CoversMatch(o.ip, m) && o.u == rule.installed;
    } else {
      o :| o in log && Passes(o) && CoversMatch(o.ip, m) && o.u == rule.installed;
    }
  }

  // --- What gets through -----------------------------------------------------------------------

  /** The verdict the policy and the table give a packet at time `t`. */
  predicate IsLetThrough(cfg: Config, conns: Table, ip: IpPacket, t: Time) {
    VerdictOf(conns, IDLE_TIMEOUT, PolicyAllows(cfg, ip.src, ip.dst, ip.proto), TrackedOf(ip), t) != Drop
  }

  lemma CheckedPacketPasses(cfg: Config, r: Router, e: PacketIn, c: Readings, src: ZoneName, dst: ZoneName, allowed: bool)
    requires ConfigOk(cfg) && e.frame.payload.Ip? && ZoneOfPort(cfg, e.dpid, e.port) == Some(src) && dst in cfg.gateways
    requires allowed == FirewallSays(cfg, c.backend, src, dst, e.frame.payload.ip) && r.outbox == []
    requires VerdictOf(r.conns, IDLE_TIMEOUT, allowed, TrackedOf(e.frame.payload.ip), c.t) != Drop
    ensures var r' := HandleCrossZoneIp(cfg, r, e, src, dst, c);
            |r'.log| == |r.log| + 1 && Passes(r'.log[|r.log|])
  {
    var checked := CheckConnection(cfg, r, e.frame.payload.ip, allowed, c);
    RouteEffects(cfg, checked, Route(cfg, checked, e, dst, c.u), e, dst, c.u);
  }

  lemma HonestPacketInPasses(cfg: Config, r: Router, s: DataPlane.Step)
    requires ConfigOk(cfg) && DaemonAgrees(cfg) && Consistent(cfg, r) && HonestArrival(cfg, s) && r.outbox == []
    requires IsLetThrough(cfg, r.conns, s.frame.payload.ip, s.c.t)
    ensures var r' := HandlePacketIn(cfg, r, EventOfStep(s), s.c);
            |r'.log| == |r.log| + 1 && Passes(r'.log[|r.log|])
  {
    var e := EventOfStep(s);
    var ip, src := e.frame.payload.ip, ZoneOfPort(cfg, e.dpid, e.port).value;
    var dst := cfg.zoneOf(ip.dst).value;
    BothFirewallsSayPolicy(cfg, s.c.backend, e, src, dst);
    LearningChecksNothing(cfg, r, e, ip.src, e.frame.src, src);
    var learned := Learn(cfg, r, e.dpid, e.port, ip.src, e.frame.src, src);
    assert HandlePacketIn(cfg, r, e, s.c) == HandleHonestIp(cfg, learned, e, src, s.c) == HandleCrossZoneIp(cfg, learned, e, src, dst, s.c);
    CheckedPacketPasses(cfg, learned, e, s.c, src, dst, PolicyAllows(cfg, ip.src, ip.dst, ip.proto));
  }

  /** An honest packet that comes to the controller gets through if the policy allows it or its entry is
      alive. */
  lemma PassingPacketsGetThrough(cfg: Config, steps: seq<DataPlane.Step>, nets: seq<Net>, late: Time, k: nat)
    requires InRun(cfg, steps, nets, late, k) && k < |steps| && HonestArrival(cfg, steps[k]) && steps[k].via.None?
    requires IsLetThrough(cfg, nets[k].router.conns, steps[k].frame.payload.ip, steps[k].c.t)
    ensures GetsThrough(cfg, nets[k], steps[k], nets[k + 1])
  {
    var n, s := nets[k], steps[k];
    RunKeepsInv(cfg, steps, nets, late, k);
    assert Follows(cfg, n, s, nets[k + 1], late);
    HonestPacketInPasses(cfg, n.router, s);
    DeliveryKeepsRouter(cfg, n, HandlePacketIn(cfg, n.router, EventOfStep(s), s.c), s.c.u);
  }

  /** No drop rule ever stands in the way of a packet the policy allows. */
  lemma DropRulesSpareAllowedPackets(cfg: Config, n: Net, s: DataPlane.Step, late: Time)
    requires ConfigOk(cfg) && Inv(cfg, n, late) && Enabled(cfg, n, s, late) && HonestArrival(cfg, s) && s.via.Some?
    requires PolicyAllows(cfg, s.frame.payload.ip.src, s.frame.payload.ip.dst, s.frame.payload.ip.proto)
    ensures TableOf(n, s.dpid)[s.via.value].actions != []
  {
  }

  /** In the direction the policy allows, every honest packet gets through, by rule or by check. */
  lemma AllowedPacketsGetThrough(cfg: Config, steps: seq<DataPlane.Step>, nets: seq<Net>, late: Time, k: nat)
    requires InRun(cfg, steps, nets, late, k) && k < |steps| && HonestArrival(cfg, steps[k])
    requires PolicyAllows(cfg, steps[k].frame.payload.ip.src, steps[k].frame.payload.ip.dst, steps[k].frame.payload.ip.proto)
    ensures GetsThrough(cfg, nets[k], steps[k], nets[k + 1])
  {
    if steps[k].via.Some? {
      RunKeepsInv(cfg, steps, nets, late, k);
      assert Follows(cfg, nets[k], steps[k], nets[k + 1], late);
      DropRulesSpareAllowedPackets(cfg, nets[k], steps[k], late);
    } else {
      PassingPacketsGetThrough(cfg, steps, nets, late, k);
    }
  }

  /** In the direction the policy blocks, every honest packet that comes to the controller and can be a
      reply gets through if the entry it answers is alive at the controller's reading. */
  lemma RepliesGetThrough(cfg: Config, steps: seq<DataPlane.Step>, nets: seq<Net>, late: Time, k: nat)
    requires InRun(cfg, steps, nets, late, k) && k < |steps| && HonestArrival(cfg, steps[k]) && steps[k].via.None?
    requires CanBe(steps[k].frame.payload.ip, false)
    requires Alive(nets[k].router.conns, IDLE_TIMEOUT, FlowOf(steps[k].frame.payload.ip).Reversed(), steps[k].c.t)
    ensures GetsThrough(cfg, nets[k], steps[k], nets[k + 1])
  {
    PassingPacketsGetThrough(cfg, steps, nets, late, k);
  }

  /** Behind every packet that gets through unhidden is a passed check of its own flow, made while it came
      to the controller or less than the hard timeout ago. */
  lemma ThroughPacketWasChecked(cfg: Config, steps: seq<DataPlane.Step>, nets: seq<Net>, late: Time, k: nat, opens: bool) returns (j: nat)
    requires InRun(cfg, steps, nets, late, k) && k < |steps| && GetsThrough(cfg, nets[k], steps[k], nets[k + 1])
    requires CanBe(steps[k].frame.payload.ip, opens) && NoneHides(steps, FlowOf(steps[k].frame.payload.ip), opens)
    ensures var log := nets[k + 1].router.log;
            CheckOf(log, j, FlowOf(steps[k].frame.payload.ip), opens) && Passes(log[j]) && nets[k].now - log[j].u < ROUTED_FLOW_HARD_TIMEOUT
  {
    LogsAndClocksGrow(cfg, steps, nets, late, k, k + 1);
    StepOfRun(cfg, steps, nets, late, k);
    StepsLog(cfg, nets[k], steps[k], nets[k + 1], late);
    if steps[k].via.Some? {
      j := RuleWasChecked(cfg, steps, nets, late, k, opens);
    } else {
      j := |nets[k].router.log|;
    }
  }

  // --- The contract, for a direction the policy allows -----------------------------------------

  /** The controller takes at most `delay` from checking a packet to the end of handling it. */
  ghost predicate Prompt(steps: seq<DataPlane.Step>, delay: Time) {
    forall q :: 0 <= q < |steps| && steps[q].Arrive? ==> steps[q].c.u - steps[q].c.t <= delay
  }

  /** For every packet that gets through, its connection's entry is alive for the rest of the idle
      timeout that its rule could have used up: 120 - 60 seconds, less the controller's delay. It is
      the entry of the packet's own direction if the policy allows that, else of the other one. */
  lemma ThroughPacketsKeepTheConnection(cfg: Config, steps: seq<DataPlane.Step>, nets: seq<Net>, late: Time, delay: Time, k: nat, i: nat)
    requires InRun(cfg, steps, nets, late, i) && k < i && Prompt(steps, delay) && GetsThrough(cfg, nets[k], steps[k], nets[k + 1])
    requires var ip := steps[k].frame.payload.ip;
             var allowed := PolicyAllows(cfg, ip.src, ip.dst, ip.proto);
             CanBe(ip, allowed) && NoneHides(steps, FlowOf(ip), allowed)
    requires nets[i].now - nets[k].now < IDLE_TIMEOUT - ROUTED_FLOW_HARD_TIMEOUT - delay
    ensures var ip := steps[k].frame.payload.ip;
            Alive(nets[i].router.conns, IDLE_TIMEOUT, EntryKey(PolicyAllows(cfg, ip.src, ip.dst, ip.proto), ip), nets[i].now)
  {
    var ip := steps[k].frame.payload.ip;
    var j := ThroughPacketWasChecked(cfg, steps, nets, late, k, PolicyAllows(cfg, ip.src, ip.dst, ip.proto));
    LogsAndClocksGrow(cfg, steps, nets, late, k + 1, i);
    ChecksTakeTime(cfg, steps, nets, late, i, j);
    RecordsAreOk(cfg, steps, nets, late, i);
    CheckedConnectionIsAlive(cfg, nets[i].router.log, nets[i].router.conns, nets[i].now, ip, j, nets[i].now);
  }

  /** A recorded check was made by a handler of the run, between its arrival and its end. */
  lemma ChecksTakeTime(cfg: Config, steps: seq<DataPlane.Step>, nets: seq<Net>, late: Time, i: nat, j: nat)
    requires InRun(cfg, steps, nets, late, i) && j < |nets[i].router.log| && nets[i].router.log[j].Check?
    ensures var o := nets[i].router.log[j];
            && o.t <= o.s <= o.u
            && exists q :: 0 <= q < i && ToController(steps[q]) && nets[q].now <= o.t && o.t == steps[q].c.t && o.u == steps[q].c.u
  {
    EveryCheckHasItsPacket(cfg, steps, nets, late, i);
    var q :| 0 <= q < i && MadeBy(nets, steps, q, nets[i].router.log[j]);
    StepOfRun(cfg, steps, nets, late, q);
    assert ToController(steps[q]);
  }

  lemma CheckedConnectionIsAlive(cfg: Config, log: seq<Obs>, conns: Table, now: Time, ip: IpPacket, j: nat, t: Time)
    requires var allowed := PolicyAllows(cfg, ip.src, ip.dst, ip.proto);
             LogOk(cfg, log, conns, now) && CheckOf(log, j, FlowOf(ip), allowed) && Passes(log[j])
    requires now <= t && t - log[j].t < IDLE_TIMEOUT && log[j].t <= log[j].s
    ensures Alive(conns, IDLE_TIMEOUT, EntryKey(PolicyAllows(cfg, ip.src, ip.dst, ip.proto), ip), t)
  {
    assert CheckOk(cfg, log, j);
    PassedChecksLast(cfg, log, conns, now, j, t);
  }

  /** Consecutive honest packets of a flow, that can open it or answer for it, with gaps below `gap`. */
  ghost predicate Busy(cfg: Config, steps: seq<DataPlane.Step>, nets: seq<Net>, flow: Flow, opens: bool, at: seq<nat>, gap: Time)
    requires |nets| == |steps| + 1
  {
    && (forall q :: 0 <= q < |at| ==> at[q] < |steps| && HonestArrival(cfg, steps[at[q]]) && CanBe(steps[at[q]].frame.payload.ip, opens)
                                      && FlowOf(steps[at[q]].frame.payload.ip) == flow)
    && (forall q :: 0 < q < |at| ==> at[q - 1] < at[q] && nets[at[q]].now - nets[at[q - 1]].now < gap)
  }

  /** State `i` lies between the first packet of `at` and `gap` seconds after the last. */
  predicate During(nets: seq<Net>, at: seq<nat>, gap: Time, i: nat) {
    at != [] && at[0] < i < |nets| && at[|at| - 1] < |nets| && nets[i].now - nets[at[|at| - 1]].now < gap
  }

  /** The timing contract: a direction the policy allows, whose packets are less than 60 seconds apart
      (less the delay), keeps its connection tracked in every state from its first packet until 60
      seconds after its last, however few of the packets the controller sees. */
  lemma BusyConnectionsStayTracked(cfg: Config, steps: seq<DataPlane.Step>, nets: seq<Net>, late: Time, delay: Time, flow: Flow, at: seq<nat>, i: nat)
    requires InRun(cfg, steps, nets, late, i) && Prompt(steps, delay) && NoneHides(steps, flow, true) && PolicyAllows(cfg, flow.src, flow.dst, flow.proto)
    requires Busy(cfg, steps, nets, flow, true, at, IDLE_TIMEOUT - ROUTED_FLOW_HARD_TIMEOUT - delay)
    requires During(nets, at, IDLE_TIMEOUT - ROUTED_FLOW_HARD_TIMEOUT - delay, i)
    ensures Alive(nets[i].router.conns, IDLE_TIMEOUT, flow, nets[i].now)
  {
    var q := LastBefore(at, i);
    if q + 1 < |at| {
      LogsAndClocksGrow(cfg, steps, nets, late, i, at[q + 1]);
    }
    AllowedPacketsGetThrough(cfg, steps, nets, late, at[q]);
    ThroughPacketsKeepTheConnection(cfg, steps, nets, late, delay, at[q], i);
  }

  lemma LastBefore(at: seq<nat>, i: nat) returns (q: nat)
    requires at != [] && at[0] < i
    ensures q < |at| && at[q] < i && (q + 1 < |at| ==> at[q + 1] >= i)
  {
    q := 0;
    while q + 1 < |at| && at[q + 1] < i
      invariant q < |at| && at[q] < i
    {
      q := q + 1;
    }
  }

  // --- The contract, for a direction the policy blocks -----------------------------------------

  /** The controller is done with every packet at most `delay` after it arrived. */
  ghost predicate Swift(steps: seq<DataPlane.Step>, nets: seq<Net>, delay: Time)
    requires |nets| == |steps| + 1
  {
    delay >= 0.0 && forall q :: 0 <= q < |steps| && steps[q].Arrive? && steps[q].via.None? ==> steps[q].c.u - nets[q].now <= delay
  }

  lemma SwiftChecksAreFresh(cfg: Config, steps: seq<DataPlane.Step>, nets: seq<Net>, late: Time, delay: Time, i: nat, j: nat)
    requires InRun(cfg, steps, nets, late, i) && Swift(steps, nets, delay) && j < |nets[i].router.log| && nets[i].router.log[j].Check?
    ensures var o := nets[i].router.log[j];
            o.u - delay <= o.t <= o.s
  {
    ChecksTakeTime(cfg, steps, nets, late, i, j);
  }

  /** A reply that a rule still drops finds an entry so young that it easily outlasts the rule: the entry
      was stamped after the refusal the rule stems from. */
  lemma DroppedReplyHasAYoungEntry(cfg: Config, steps: seq<DataPlane.Step>, nets: seq<Net>, late: Time, k: nat, j: nat, flow: Flow, delay: Time)
    requires InRun(cfg, steps, nets, late, k) && k < |steps| && Swift(steps, nets, delay)
    requires CheckOf(nets[k].router.log, j, flow, false) && nets[k].router.log[j].verdict == Drop
    requires nets[k].now - nets[k].router.log[j].u < DROP_FLOW_HARD_TIMEOUT
    requires Alive(nets[k].router.conns, IDLE_TIMEOUT, flow.Reversed(), nets[k].now + delay)
    ensures nets[k].now - nets[k].router.conns[flow.Reversed()] < DROP_FLOW_HARD_TIMEOUT + delay
  {
    RecordsAreOk(cfg, steps, nets, late, k);
    AliveAfterRefusal(cfg, nets[k].router.log, nets[k].router.conns, nets[k].now, j, nets[k].now + delay);
    SwiftChecksAreFresh(cfg, steps, nets, late, delay, k, j);
  }

  /** A reply that gets through. */
  lemma PassedReplyKeepsTheConnection(cfg: Config, steps: seq<DataPlane.Step>, nets: seq<Net>, late: Time, delay: Time, k: nat, i: nat)
    requires InRun(cfg, steps, nets, late, i) && k < i && Swift(steps, nets, delay) && GetsThrough(cfg, nets[k], steps[k], nets[k + 1])
    requires var ip := steps[k].frame.payload.ip;
             CanBe(ip, false) && NoneHides(steps, FlowOf(ip), false) && !PolicyAllows(cfg, ip.src, ip.dst, ip.proto)
    requires nets[i].now - nets[k].now < IDLE_TIMEOUT - ROUTED_FLOW_HARD_TIMEOUT - 2.0 * delay
    ensures Alive(nets[i].router.conns, IDLE_TIMEOUT, FlowOf(steps[k].frame.payload.ip).Reversed(), nets[i].now + delay)
  {
    var j := ThroughPacketWasChecked(cfg, steps, nets, late, k, false);
    LogsAndClocksGrow(cfg, steps, nets, late, k + 1, i);
    RecordsAreOk(cfg, steps, nets, late, i);
    SwiftChecksAreFresh(cfg, steps, nets, late, delay, i, j);
    CheckedConnectionIsAlive(cfg, nets[i].router.log, nets[i].router.conns, nets[i].now, steps[k].frame.payload.ip, j, nets[i].now + delay);
  }

  /** One reply: if its entry will not go idle while the controller handles it, the entry stays that far
      from idle for 60 seconds less twice the delay, whether a rule or the controller passes the reply on
      or a rule left from before the connection drops it. */
  lemma ReplyKeepsTheConnection(cfg: Config, steps: seq<DataPlane.Step>, nets: seq<Net>, late: Time, delay: Time, k: nat, i: nat)
    requires InRun(cfg, steps, nets, late, i) && k < i && Swift(steps, nets, delay) && HonestArrival(cfg, steps[k])
    requires var ip := steps[k].frame.payload.ip;
             CanBe(ip, false) && NoneHides(steps, FlowOf(ip), false) && !PolicyAllows(cfg, ip.src, ip.dst, ip.proto)
    requires Alive(nets[k].router.conns, IDLE_TIMEOUT, FlowOf(steps[k].frame.payload.ip).Reversed(), nets[k].now + delay)
    requires nets[i].now - nets[k].now < IDLE_TIMEOUT - ROUTED_FLOW_HARD_TIMEOUT - 2.0 * delay
    ensures Alive(nets[i].router.conns, IDLE_TIMEOUT, FlowOf(steps[k].frame.payload.ip).Reversed(), nets[i].now + delay)
  {
    var flow := FlowOf(steps[k].frame.payload.ip);
    StepOfRun(cfg, steps, nets, late, k);
    if steps[k].via.None? {
      RepliesGetThrough(cfg, steps, nets, late, k);
      PassedReplyKeepsTheConnection(cfg, steps, nets, late, delay, k, i);
    } else if TableOf(nets[k], steps[k].dpid)[steps[k].via.value].actions != [] {
      PassedReplyKeepsTheConnection(cfg, steps, nets, late, delay, k, i);
    } else {
      var j := RuleWasChecked(cfg, steps, nets, late, k, false);
      DroppedReplyHasAYoungEntry(cfg, steps, nets, late, k, j, flow, delay);
      AliveLater(cfg, steps, nets, late, k, i, flow.Reversed(), nets[i].now + delay);
    }
  }

  lemma {:induction false} RepliesUpTo(cfg: Config, steps: seq<DataPlane.Step>, nets: seq<Net>, late: Time, delay: Time, flow: Flow, at: seq<nat>, q: nat, i: nat)
    requires InRun(cfg, steps, nets, late, i) && Swift(steps, nets, delay) && NoneHides(steps, flow, false) && !PolicyAllows(cfg, flow.src, flow.dst, flow.proto)
    requires Busy(cfg, steps, nets, flow, false, at, IDLE_TIMEOUT - ROUTED_FLOW_HARD_TIMEOUT - 2.0 * delay) && q < |at| && at[q] < i
    requires Alive(nets[at[0]].router.conns, IDLE_TIMEOUT, flow.Reversed(), nets[at[0]].now + delay)
    requires nets[i].now - nets[at[q]].now < IDLE_TIMEOUT - ROUTED_FLOW_HARD_TIMEOUT - 2.0 * delay
    ensures Alive(nets[i].router.conns, IDLE_TIMEOUT, flow.Reversed(), nets[i].now + delay)
    decreases q
  {
    if q > 0 {
      RepliesUpTo(cfg, steps, nets, late, delay, flow, at, q - 1, at[q]);
    }
    ReplyKeepsTheConnection(cfg, steps, nets, late, delay, at[q], i);
  }

  /** Replies alone keep a connection alive: a direction the policy blocks, whose packets are less than 60
      seconds apart (less twice the delay), keeps the entry it answers tracked in every state from its first
      packet until 60 seconds after its last, given only that the entry was alive when the first came. The
      delay counts twice because a reply is stamped after it arrives and before its rule is installed. */
  lemma RepliesKeepTheConnection(cfg: Config, steps: seq<DataPlane.Step>, nets: seq<Net>, late: Time, delay: Time, flow: Flow, at: seq<nat>, i: nat)
    requires InRun(cfg, steps, nets, late, i) && Swift(steps, nets, delay) && NoneHides(steps, flow, false) && !PolicyAllows(cfg, flow.src, flow.dst, flow.proto)
    requires Busy(cfg, steps, nets, flow, false, at, IDLE_TIMEOUT - ROUTED_FLOW_HARD_TIMEOUT - 2.0 * delay)
    requires During(nets, at, IDLE_TIMEOUT - ROUTED_FLOW_HARD_TIMEOUT - 2.0 * delay, i)
    requires Alive(nets[at[0]].router.conns, IDLE_TIMEOUT, flow.Reversed(), nets[at[0]].now + delay)
    ensures Alive(nets[i].router.conns, IDLE_TIMEOUT, flow.Reversed(), nets[i].now)
  {
    var q := LastBefore(at, i);
    if q + 1 < |at| {
      LogsAndClocksGrow(cfg, steps, nets, late, i, at[q + 1]);
    }
    RepliesUpTo(cfg, steps, nets, late, delay, flow, at, q, i);
  }
}
