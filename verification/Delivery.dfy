/** What the controller knows of where hosts are, and what it does with it: over every run its tables
    hold exactly the last place each address was seen, and frames, replies and waiting packets leave
    accordingly. */
module Delivery {
  import opened Common
  import opened Ipv4
  import opened Policy
  import opened ConnTrack
  import opened OpenFlow
  import opened RouterModel
  import opened RouterEffects
  import opened DataPlane
  import opened Isolation
  import opened Floods
  import opened RunLog
  import opened Messages
  import opened Queues

  // --- The tables over a run -------------------------------------------------------------------

  /** What a step teaches the controller: only a packet-in can. */
  function StepLesson(cfg: Config, s: Step): Option<Lesson> {
    if s.Arrive? && s.via.None? then LessonOf(cfg, EventOfStep(s)) else None
  }

  /** The port at which the MAC address was last learned on the switch, before step `i`. */
  function LastPort(cfg: Config, steps: seq<Step>, i: nat, dpid: Dpid, mac: Mac): Option<Port>
    requires i <= |steps|
  {
    if i == 0 then None
    else
      var s := steps[i - 1];
      var lesson := StepLesson(cfg, s);
      if lesson.Some? && s.dpid == dpid && lesson.value.mac == mac then Some(s.port) else LastPort(cfg, steps, i - 1, dpid, mac)
  }

  /** The place at which the host was last learned, before step `i`. */
  function LastPlace(cfg: Config, steps: seq<Step>, i: nat, ip: Addr): Option<Location>
    requires i <= |steps|
  {
    if i == 0 then None
    else
      var lesson := StepLesson(cfg, steps[i - 1]);
      if lesson.Some? && lesson.value.place.Some? && lesson.value.place.value.0 == ip then Some(lesson.value.place.value.1)
      else LastPlace(cfg, steps, i - 1, ip)
  }

  ghost predicate SameKnowledge(r: Router, r': Router) {
    r'.ipToLoc == r.ipToLoc && forall d, m :: PortSeen(r', d, m) == PortSeen(r, d, m)
  }

  ghost predicate StepTaught(cfg: Config, n: Net, s: Step, n': Net) {
    if s.Arrive? && s.via.None? then Taught(n.router, n'.router, EventOfStep(s), StepLesson(cfg, s))
    else SameKnowledge(n.router, n'.router)
  }

  lemma PacketInsTeach(cfg: Config, n: Net, s: Step)
    requires ConfigOk(cfg) && Consistent(cfg, n.router) && s.Arrive? && s.via.None? && n.router.outbox == []
    ensures Taught(n.router, Apply(cfg, n, s).router, EventOfStep(s), LessonOf(cfg, EventOfStep(s)))
  {
    var r' := HandlePacketIn(cfg, n.router, EventOfStep(s), s.c);
    PacketInEffects(cfg, n.router, r', EventOfStep(s), s.c);
    DeliveryKeepsRouter(cfg, n, r', s.c.u);
    TaughtStays(n.router, r', Apply(cfg, n, s).router, EventOfStep(s), LessonOf(cfg, EventOfStep(s)));
  }

  lemma TaughtStays(r: Router, r': Router, later: Router, e: PacketIn, lesson: Option<Lesson>)
    requires Taught(r, r', e, lesson) && SameTables(r', later)
    ensures Taught(r, later, e, lesson)
  {
    forall d, m ensures PortSeen(later, d, m) == PortSeen(r', d, m) {
    }
  }

  lemma StepsTeach(cfg: Config, n: Net, s: Step, n': Net, late: Time)
    requires ConfigOk(cfg) && Follows(cfg, n, s, n', late) && n.router.outbox == []
    ensures StepTaught(cfg, n, s, n')
  {
    if s.TimerFires? {
      var r' := RetryArp(cfg, n.router, s.id, n.now);
      TickSends(cfg, n.router, r', s.id, n.now);
      DeliveryKeepsRouter(cfg, n, r', n.now);
    } else if s.Arrive? && s.via.Some? {
      var rule := TableOf(n, s.dpid)[s.via.value];
      EmittingChangesNoTable(cfg, Install(n, s.dpid, s.via.value, rule.(lastHit := n.now)), s.dpid, Execute(rule.actions, s.frame), true);
    } else if s.Arrive? {
      PacketInsTeach(cfg, n, s);
    }
  }

  ghost predicate TablesAreLast(cfg: Config, steps: seq<Step>, nets: seq<Net>, i: nat)
    requires i < |nets| == |steps| + 1
  {
    && (forall d, m :: PortSeen(nets[i].router, d, m) == LastPort(cfg, steps, i, d, m))
    && (forall ip :: Get(nets[i].router.ipToLoc, ip) == LastPlace(cfg, steps, i, ip))
  }

  lemma {:induction false} LastThroughout(cfg: Config, steps: seq<Step>, nets: seq<Net>, i: nat)
    requires i < |nets| == |steps| + 1 && nets[0] == START
    requires forall q :: 0 <= q < i ==> StepTaught(cfg, nets[q], steps[q], nets[q + 1])
    ensures TablesAreLast(cfg, steps, nets, i)
  {
    if i > 0 {
      LastThroughout(cfg, steps, nets, i - 1);
      assert StepTaught(cfg, nets[i - 1], steps[i - 1], nets[i]);
    }
  }

  /** In every reachable state the MAC tables hold, for each switch and MAC address, the port it was last
      learned at, and the location table, for each address, the place it was last learned at. */
  lemma TablesHoldTheLastPlace(cfg: Config, steps: seq<Step>, nets: seq<Net>, late: Time, i: nat)
    requires InRun(cfg, steps, nets, late, i)
    ensures TablesAreLast(cfg, steps, nets, i)
  {
    forall q | 0 <= q < i ensures StepTaught(cfg, nets[q], steps[q], nets[q + 1]) {
      StepOfRun(cfg, steps, nets, late, q);
      StepsTeach(cfg, nets[q], steps[q], nets[q + 1], late);
    }
    LastThroughout(cfg, steps, nets, i);
  }

  // --- Unicast frames --------------------------------------------------------------------------

  /** The frame leaves through the port learned for its destination and no other, together with a rule of
      30 and 60 seconds that sends the ones like it after it; if no port was learned, it is flooded. */
  ghost predicate LeavesThrough(cfg: Config, n: Net, s: Step, n': Net, last: Option<Port>)
    requires s.Arrive?
  {
    match last
    case None => IsFlooded(cfg, n, s, n')
    case Some(port) =>
      && n'.trace == n.trace + [Sent(s.c.u, s.dpid, To(port), s.frame, false)]
      && n'.tables == n.tables[s.dpid := TableOf(n, s.dpid)[MatchOf(s.frame, s.port) := Rule([Output(To(port))], 30.0, 60.0, s.c.u, s.c.u)]]
  }

  /** A frame handed to layer 2 after its source was learned. */
  lemma L2Delivers(cfg: Config, n: Net, s: Step, learned: Router)
    requires ConfigOk(cfg) && s.Arrive? && learned.outbox == []
    ensures var n' := Deliver(cfg, n, L2Forward(cfg, learned, EventOfStep(s)), s.c.u);
            LeavesThrough(cfg, n, s, n', PortSeen(n'.router, s.dpid, s.frame.dst))
  {
    var e, r', seen := EventOfStep(s), L2Forward(cfg, learned, EventOfStep(s)), PortSeen(learned, s.dpid, s.frame.dst);
    L2Sends(cfg, learned, e);
    DeliveryKeepsRouter(cfg, n, r', s.c.u);
    if seen.None? {
      FloodIsSent(cfg, n, s, r');
    } else {
      var m := FlowMod(s.dpid, MatchOf(s.frame, s.port), 30.0, 60.0, [Output(To(seen.value))], Some(s.frame));
      OneMessageIsObeyed(cfg, n, r', s.c.u, m);
      RuleTakesItsFrame(cfg, n.(router := r'.(outbox := []), now := s.c.u), s.dpid, MatchOf(s.frame, s.port), 30.0, 60.0, To(seen.value), s.frame);
    }
  }

  /** The frame of step `k` leaves through the port its destination was last seen at. */
  ghost predicate ReachesTheLastPort(cfg: Config, steps: seq<Step>, nets: seq<Net>, k: nat)
    requires k < |steps| && |nets| == |steps| + 1 && steps[k].Arrive?
  {
    LeavesThrough(cfg, nets[k], steps[k], nets[k + 1], LastPort(cfg, steps, k + 1, steps[k].dpid, steps[k].frame.dst))
  }

  lemma L2ReachesTheLastPort(cfg: Config, steps: seq<Step>, nets: seq<Net>, late: Time, k: nat, learned: Router)
    requires InRun(cfg, steps, nets, late, k) && k < |steps| && steps[k].Arrive? && learned.outbox == []
    requires nets[k + 1] == Deliver(cfg, nets[k], L2Forward(cfg, learned, EventOfStep(steps[k])), steps[k].c.u)
    ensures ReachesTheLastPort(cfg, steps, nets, k)
  {
    L2Delivers(cfg, nets[k], steps[k], learned);
    TablesHoldTheLastPlace(cfg, steps, nets, late, k + 1);
  }

  /** A frame comes down a leaf's uplink and no rule takes it. */
  predicate ComesDown(cfg: Config, s: Step) {
    s.Arrive? && s.via.None? && s.complete && IsLeafUplink(cfg, s.dpid, s.port) && !s.frame.payload.Lldp?
  }

  /** In every run, a unicast frame from the core leaves the leaf through the port its destination was
      last seen at, and through no other; only a destination never seen is flooded for. */
  lemma FramesReachTheLastPort(cfg: Config, steps: seq<Step>, nets: seq<Net>, late: Time, k: nat)
    requires InRun(cfg, steps, nets, late, k) && k < |steps| && ComesDown(cfg, steps[k]) && !IsMulticast(steps[k].frame.dst)
    ensures ReachesTheLastPort(cfg, steps, nets, k)
  {
    var n, s := nets[k], steps[k];
    StepOfRun(cfg, steps, nets, late, k);
    L2ReachesTheLastPort(cfg, steps, nets, late, k, LearnMac(n.router, s.dpid, s.frame.src, s.port));
  }

  /** A host's packet to its own zone, honest and not for a gateway, comes to the controller. */
  predicate StaysInItsZone(cfg: Config, s: Step, zone: ZoneName) {
    && s.Arrive? && s.via.None? && s.complete && !IsLeafUplink(cfg, s.dpid, s.port) && s.frame.payload.Ip?
    && ZoneOfPort(cfg, s.dpid, s.port) == Some(zone) && SourceValid(cfg, s.frame.payload.ip.src, zone)
    && cfg.zoneOf(s.frame.payload.ip.dst) == Some(zone) && !IsGateway(cfg, s.frame.payload.ip.dst)
  }

  /** In every run, at any switch, so does a host's packet to another host of its zone. */
  lemma HostPacketsReachTheLastPort(cfg: Config, steps: seq<Step>, nets: seq<Net>, late: Time, k: nat, zone: ZoneName)
    requires InRun(cfg, steps, nets, late, k) && k < |steps| && StaysInItsZone(cfg, steps[k], zone)
    ensures ReachesTheLastPort(cfg, steps, nets, k)
  {
    var n, s := nets[k], steps[k];
    var learned := Learn(cfg, n.router, s.dpid, s.port, s.frame.payload.ip.src, s.frame.src, zone);
    StepOfRun(cfg, steps, nets, late, k);
    LearningChecksNothing(cfg, n.router, EventOfStep(s), s.frame.payload.ip.src, s.frame.src, zone);
    assert HandlePacketIn(cfg, n.router, EventOfStep(s), s.c) == HandleHonestIp(cfg, learned, EventOfStep(s), zone, s.c);
    L2ReachesTheLastPort(cfg, steps, nets, late, k, learned);
  }

  // --- Floods ----------------------------------------------------------------------------------

  /** A host's frame that is neither IP, ARP nor LLDP, or honest ARP that is no request or answer for a
      gateway: whatever two hosts of a zone have to say to each other. */
  predicate IsHostTalk(cfg: Config, s: Step) {
    && s.Arrive? && s.via.None? && s.complete && !IsLeafUplink(cfg, s.dpid, s.port)
    && (|| s.frame.payload.OtherType?
        || (s.frame.payload.Arp? && HonestArp(cfg, s)
            && !(IsGateway(cfg, s.frame.payload.protodst) && s.frame.payload.opcode in {1, 2})))
  }

  predicate HonestArp(cfg: Config, s: Step)
    requires s.Arrive? && s.frame.payload.Arp?
  {
    var zone := ZoneOfPort(cfg, s.dpid, s.port);
    zone.Some? && SourceValid(cfg, s.frame.payload.protosrc, zone.value)
  }

  lemma FloodingDelivers(cfg: Config, n: Net, s: Step, learned: Router)
    requires ConfigOk(cfg) && s.Arrive? && learned.outbox == []
    ensures IsFlooded(cfg, n, s, Deliver(cfg, n, FloodInZone(cfg, learned, EventOfStep(s)), s.c.u))
  {
    FloodingSends(cfg, learned, EventOfStep(s));
    FloodIsSent(cfg, n, s, FloodInZone(cfg, learned, EventOfStep(s)));
  }

  /** In every run, such a frame is flooded in its zone. */
  lemma HostTalkIsFlooded(cfg: Config, steps: seq<Step>, nets: seq<Net>, late: Time, k: nat)
    requires InRun(cfg, steps, nets, late, k) && k < |steps| && IsHostTalk(cfg, steps[k])
    ensures IsFlooded(cfg, nets[k], steps[k], nets[k + 1])
  {
    var n, s := nets[k], steps[k];
    StepOfRun(cfg, steps, nets, late, k);
    if s.frame.payload.Arp? {
      var a, zone := s.frame.payload, ZoneOfPort(cfg, s.dpid, s.port).value;
      LearningChecksNothing(cfg, n.router, EventOfStep(s), a.protosrc, a.hwsrc, zone);
      FloodingDelivers(cfg, n, s, Learn(cfg, n.router, s.dpid, s.port, a.protosrc, a.hwsrc, zone));
    } else {
      FloodingDelivers(cfg, n, s, n.router);
    }
  }

  /** In every run, a multicast of any kind that comes down a leaf's uplink is flooded by the leaf. */
  lemma MulticastsAreFloodedDown(cfg: Config, steps: seq<Step>, nets: seq<Net>, late: Time, k: nat)
    requires InRun(cfg, steps, nets, late, k) && k < |steps| && ComesDown(cfg, steps[k]) && IsMulticast(steps[k].frame.dst)
    ensures var s := steps[k];
            nets[k + 1].trace == nets[k].trace + [Sent(s.c.u, s.dpid, Flood, s.frame, false)] && nets[k + 1].tables == nets[k].tables
  {
    var n, s := nets[k], steps[k];
    StepOfRun(cfg, steps, nets, late, k);
    FloodingDelivers(cfg, n, s, LearnMac(n.router, s.dpid, s.frame.src, s.port));
    assert s.dpid in cfg.maps.leafUplinkPort.Keys;
  }

  // --- Dead ends -------------------------------------------------------------------------------

  /** A packet the controller drops on purpose: incomplete, LLDP, with a source address its port may not
      claim, or addressed to a gateway or to no zone at all. */
  predicate IsDeadEnd(cfg: Config, s: Step) {
    && s.Arrive? && s.via.None?
    && (|| !s.complete || s.frame.payload.Lldp?
        || (!IsLeafUplink(cfg, s.dpid, s.port) && s.frame.payload.Arp? && !HonestArp(cfg, s))
        || (!IsLeafUplink(cfg, s.dpid, s.port) && s.frame.payload.Ip?
            && (var ip, zone := s.frame.payload.ip, ZoneOfPort(cfg, s.dpid, s.port);
                zone.None? || !SourceValid(cfg, ip.src, zone.value) || IsGateway(cfg, ip.dst) || cfg.zoneOf(ip.dst).None?)))
  }

  /** In every run, it goes nowhere: nothing is sent, checked, queued or installed for it. */
  lemma DeadEndsGoNowhere(cfg: Config, steps: seq<Step>, nets: seq<Net>, late: Time, k: nat)
    requires InRun(cfg, steps, nets, late, k) && k < |steps| && IsDeadEnd(cfg, steps[k])
    ensures Untouched(nets[k], nets[k + 1])
    ensures OnlyTaught(nets[k].router, nets[k + 1].router)
  {
    var n, s := nets[k], steps[k];
    StepOfRun(cfg, steps, nets, late, k);
    var r' := HandlePacketIn(cfg, n.router, EventOfStep(s), s.c);
    DeadEndsTeachAtMost(cfg, n.router, s);
    PacketsAreSent(cfg, n, r', s.c.u, []);
  }

  ghost predicate OnlyTaught(r: Router, r': Router) {
    r' == r.(macTable := r'.macTable, ipToLoc := r'.ipToLoc)
  }

  lemma DeadEndsTeachAtMost(cfg: Config, r: Router, s: Step)
    requires ConfigOk(cfg) && Consistent(cfg, r) && IsDeadEnd(cfg, s)
    ensures OnlyTaught(r, HandlePacketIn(cfg, r, EventOfStep(s), s.c))
  {
    if s.complete && !s.frame.payload.Lldp? && s.frame.payload.Ip? {
      DeadIpTeachesAtMost(cfg, r, s);
    }
  }

  lemma DeadIpTeachesAtMost(cfg: Config, r: Router, s: Step)
    requires ConfigOk(cfg) && s.Arrive? && s.frame.payload.Ip?
    requires var ip, zone := s.frame.payload.ip, ZoneOfPort(cfg, s.dpid, s.port);
             zone.None? || !SourceValid(cfg, ip.src, zone.value) || IsGateway(cfg, ip.dst) || cfg.zoneOf(ip.dst).None?
    ensures OnlyTaught(r, HandleIp(cfg, r, EventOfStep(s), s.c))
  {
    var ip, zone := s.frame.payload.ip, ZoneOfPort(cfg, s.dpid, s.port);
    if zone.Some? && SourceValid(cfg, ip.src, zone.value) {
      var learned := Learn(cfg, r, s.dpid, s.port, ip.src, s.frame.src, zone.value);
      assert HandleIp(cfg, r, EventOfStep(s), s.c) == HandleHonestIp(cfg, learned, EventOfStep(s), zone.value, s.c) == learned;
      LearningOnlyTeaches(cfg, r, s.dpid, s.port, ip.src, s.frame.src, zone.value);
    }
  }

  lemma LearningOnlyTeaches(cfg: Config, r: Router, dpid: Dpid, port: Port, ip: Addr, mac: Mac, zone: ZoneName)
    ensures OnlyTaught(r, Learn(cfg, r, dpid, port, ip, mac, zone))
  {
  }

  // --- Gateways --------------------------------------------------------------------------------

  /** An honest host sends ARP with a gateway as its target. */
  predicate TalksToGateway(cfg: Config, s: Step, opcode: nat, zone: ZoneName) {
    && s.Arrive? && s.via.None? && s.complete && !IsLeafUplink(cfg, s.dpid, s.port) && s.frame.payload.Arp?
    && s.frame.payload.opcode == opcode && IsGateway(cfg, s.frame.payload.protodst)
    && ZoneOfPort(cfg, s.dpid, s.port) == Some(zone) && SourceValid(cfg, s.frame.payload.protosrc, zone)
  }

  /** In every run, a host that asks for a gateway gets exactly one answer, at once, out of the port it
      asked through: the address it asked for is at the MAC of its own zone's gateway. Its location is
      known from then on. */
  lemma GatewayRequestsAreAnswered(cfg: Config, steps: seq<Step>, nets: seq<Net>, late: Time, k: nat, zone: ZoneName)
    requires InRun(cfg, steps, nets, late, k) && k < |steps| && TalksToGateway(cfg, steps[k], ARP_REQUEST, zone)
    ensures zone in cfg.gateways && CorePortFor(cfg, steps[k].dpid, steps[k].port).Some?
    ensures var s, a := steps[k], steps[k].frame.payload;
            var mac := cfg.gateways[zone].mac;
            && nets[k + 1].trace == nets[k].trace
                 + [Sent(s.c.u, s.dpid, To(s.port), Frame(mac, a.hwsrc, Arp(2, mac, a.protodst, a.hwsrc, a.protosrc)), false)]
            && nets[k + 1].tables == nets[k].tables
            && Get(nets[k + 1].router.ipToLoc, a.protosrc) == Some(Location(CorePortFor(cfg, s.dpid, s.port).value, a.hwsrc, zone))
  {
    var n, s := nets[k], steps[k];
    StepOfRun(cfg, steps, nets, late, k);
    StepsTeach(cfg, n, s, nets[k + 1], late);
    CorePortIsInTheZone(cfg, s.dpid, s.port);
    var a, r' := s.frame.payload, HandlePacketIn(cfg, n.router, EventOfStep(s), s.c);
    var mac := cfg.gateways[zone].mac;
    assert r'.outbox == [PacketOut(s.dpid, Frame(mac, a.hwsrc, Arp(2, mac, a.protodst, a.hwsrc, a.protosrc)), To(s.port))];
    PacketsAreSent(cfg, n, r', s.c.u, r'.outbox);
  }

  /** In every run, when a host with packets waiting answers a probe, its entry is gone at once and every
      packet that waited has become its own frame, in order, toward where the host answered from. */
  lemma AnswersDrainTheQueue(cfg: Config, steps: seq<Step>, nets: seq<Net>, late: Time, k: nat, zone: ZoneName) returns (msgs: seq<Msg>)
    requires InRun(cfg, steps, nets, late, k) && k < |steps| && TalksToGateway(cfg, steps[k], ARP_REPLY, zone)
    requires steps[k].frame.payload.protosrc in nets[k].router.pending
    ensures CorePortFor(cfg, steps[k].dpid, steps[k].port).Some? && PacketsOnly(msgs)
    ensures var s, ip, r := steps[k], steps[k].frame.payload.protosrc, nets[k].router;
            && nets[k + 1].router.pending == r.pending - {ip} && nets[k + 1].router.timers == r.timers - {r.pending[ip].timer}
            && nets[k + 1].router.connections == r.connections
            && BecomeInOrder(cfg, r.connections, r.pending[ip].queue, r.pending[ip].zone,
                             Some((CorePortFor(cfg, s.dpid, s.port).value, s.frame.payload.hwsrc)), msgs)
            && nets[k + 1].trace == nets[k].trace + Leaving(msgs, s.c.u) && nets[k + 1].tables == nets[k].tables
  {
    var n, s, a := nets[k], steps[k], steps[k].frame.payload;
    StepOfRun(cfg, steps, nets, late, k);
    CorePortIsInTheZone(cfg, s.dpid, s.port);
    var learned := Learn(cfg, n.router, s.dpid, s.port, a.protosrc, a.hwsrc, zone);
    var r' := HandlePacketIn(cfg, n.router, EventOfStep(s), s.c);
    assert r' == HandleHonestArp(cfg, learned, EventOfStep(s), zone) == ResolvePending(cfg, learned, a.protosrc, a.hwsrc);
    msgs := ResolvingSends(cfg, learned, a.protosrc, a.hwsrc);
    ResolveSends(cfg, learned, r', a.protosrc, a.hwsrc);
    assert r'.outbox == msgs;
    PacketsAreSent(cfg, n, r', s.c.u, msgs);
  }

  /** If none waits, the answer only teaches where the host is. */
  lemma AnswersToNobodyEndThere(cfg: Config, steps: seq<Step>, nets: seq<Net>, late: Time, k: nat, zone: ZoneName)
    requires InRun(cfg, steps, nets, late, k) && k < |steps| && TalksToGateway(cfg, steps[k], ARP_REPLY, zone)
    requires steps[k].frame.payload.protosrc !in nets[k].router.pending
    ensures Untouched(nets[k], nets[k + 1])
    ensures nets[k + 1].router.pending == nets[k].router.pending && nets[k + 1].router.timers == nets[k].router.timers
    ensures nets[k + 1].router.connections == nets[k].router.connections
  {
    var n, s, a := nets[k], steps[k], steps[k].frame.payload;
    StepOfRun(cfg, steps, nets, late, k);
    LearningChecksNothing(cfg, n.router, EventOfStep(s), a.protosrc, a.hwsrc, zone);
    var r' := HandlePacketIn(cfg, n.router, EventOfStep(s), s.c);
    assert r'.outbox == [] && r'.pending == n.router.pending && r'.timers == n.router.timers && r'.connections == n.router.connections;
    PacketsAreSent(cfg, n, r', s.c.u, []);
  }

  lemma ResolvingSends(cfg: Config, r: Router, ip: Addr, mac: Mac) returns (msgs: seq<Msg>)
    requires ConfigOk(cfg) && Consistent(cfg, r) && ip in r.ipToLoc && ip in r.pending && r.outbox == []
    ensures var r' := ResolvePending(cfg, r, ip, mac);
            && r'.outbox == msgs && PacketsOnly(msgs) && r'.pending == r.pending - {ip} && r'.timers == r.timers - {r.pending[ip].timer}
            && r'.connections == r.connections
            && BecomeInOrder(cfg, r.connections, r.pending[ip].queue, r.pending[ip].zone, Some((r.ipToLoc[ip].corePort, mac)), msgs)
  {
    var entry := r.pending[ip];
    var removed := r.(timers := r.timers - {entry.timer}, pending := r.pending - {ip});
    msgs := ForwardAllInOrder(cfg, removed, entry.queue, ip, entry.timer, entry.zone, r.ipToLoc[ip].corePort, mac);
    ForwardAllSends(cfg, removed, entry.queue, ip, entry.timer, entry.zone, r.ipToLoc[ip].corePort, mac);
    DrainingKeepsPending(cfg, removed, entry.queue, ip, entry.timer, entry.zone, r.ipToLoc[ip].corePort, mac);
  }

  lemma {:induction false} DrainingKeepsPending(cfg: Config, r: Router, queue: seq<Job>, ip: Addr, entry: TimerId, zone: ZoneName, out: Port, mac: Mac)
    requires ConfigOk(cfg) && zone in cfg.gateways
    ensures var r' := ForwardAll(cfg, r, queue, ip, entry, zone, out, mac);
            r'.pending == r.pending && r'.timers == r.timers && r'.connections == r.connections
    decreases queue
  {
    if queue != [] {
      var first := ForwardSendsIt(cfg, r, queue[0], zone, out, mac);
      var sent := Send(r, first);
      var next := sent.(released := sent.released[ip := History(sent.released, ip) + [Release(queue[0], Forwarded, entry)]]);
      DrainingKeepsPending(cfg, next, queue[1..], ip, entry, zone, out, mac);
    }
  }
}
