/** ARP resolution in every run: a host whose place is not known is asked for on every core port of its
    zone, one round a second, at most three rounds, and packets wait in line until it answers. */
module Probing {
  import opened Common
  import opened Ipv4
  import opened Policy
  import opened ConnTrack
  import opened OpenFlow
  import opened RouterModel
  import opened RouterInv
  import opened RouterEffects
  import opened DataPlane
  import opened Isolation
  import opened Floods
  import opened RunLog
  import opened Messages
  import opened KeepAlive
  import opened Queues
  import opened Delivery
  import opened Routing

  // --- One round -------------------------------------------------------------------------------

  /** The gateway of the zone asks who has the address. */
  function WhoHas(gateway: Gateway, ip: Addr): Frame {
    Frame(gateway.mac, "ff:ff:ff:ff:ff:ff", Arp(1, gateway.mac, gateway.ip, "ff:ff:ff:ff:ff:ff", ip))
  }

  /** The question has left the core exactly once through every port of the zone and through no other, and
      nothing else was sent; without a core connection nothing was. */
  ghost predicate RoundIsSent(cfg: Config, n: Net, n': Net, ip: Addr, zone: ZoneName, at: Time) {
    && zone in cfg.gateways && n'.tables == n.tables
    && if cfg.maps.coreDpid in n.router.connections
       then exists sent :: n'.trace == n.trace + sent && OncePerPort(cfg, sent, at, WhoHas(cfg.gateways[zone], ip), zone, None)
       else n'.trace == n.trace
  }

  /** The messages of a round. */
  function RoundMsgs(cfg: Config, connections: set<Dpid>, ip: Addr, zone: ZoneName): seq<Msg>
    requires zone in cfg.gateways
  {
    if cfg.maps.coreDpid in connections then OutAll(cfg.maps.coreDpid, WhoHas(cfg.gateways[zone], ip), PortsOfZone(cfg, zone), None) else []
  }

  lemma ProbingSends(cfg: Config, r: Router, ip: Addr, zone: ZoneName, id: TimerId)
    requires zone in cfg.gateways
    ensures SendArpProbe(cfg, r, ip, zone, id) == r.(rounds := r.rounds + multiset{id}, outbox := r.outbox + RoundMsgs(cfg, r.connections, ip, zone))
  {
    if cfg.maps.coreDpid !in r.connections {
      assert r.outbox + [] == r.outbox;
    }
  }

  lemma RoundIsDelivered(cfg: Config, n: Net, r': Router, ip: Addr, zone: ZoneName, at: Time)
    requires ConfigOk(cfg) && zone in cfg.gateways && r'.outbox == RoundMsgs(cfg, n.router.connections, ip, zone)
    ensures RoundIsSent(cfg, n, Deliver(cfg, n, r', at), ip, zone, at)
  {
    if cfg.maps.coreDpid in n.router.connections {
      ZoneIsSentTo(cfg, n, r', at, WhoHas(cfg.gateways[zone], ip), zone, None);
    } else {
      PacketsAreSent(cfg, n, r', at, []);
    }
  }

  // --- Packets for a host whose place is not known ---------------------------------------------

  /** A packet that passes, for a host with no known place, comes to the controller. */
  predicate AsksForAHost(cfg: Config, r: Router, s: Step) {
    && CrossesZones(cfg, s) && IsLetThrough(cfg, r.conns, s.frame.payload.ip, s.c.t) && s.frame.payload.ip.dst !in r.ipToLoc
  }

  lemma OpeningChanges(cfg: Config, r: Router, job: Job, zone: ZoneName, u: Time)
    requires zone in cfg.gateways && job.ip.dst !in r.pending && r.outbox == []
    ensures var ip, id, r' := job.ip.dst, r.nextTimer, QueueAndResolve(cfg, r, job, zone, u);
            && r'.outbox == RoundMsgs(cfg, r.connections, ip, zone) && r'.connections == r.connections
            && r'.pending == r.pending[ip := Entry(zone, [job], 1, id)] && r'.timers == r.timers[id := Timer(ip, u + 1.0, u)]
  {
    ProbingSends(cfg, r, job.ip.dst, zone, r.nextTimer);
    var start := OpenEntry(cfg, r, job.ip.dst, zone, u);
    assert [] + [job] == [job] && [] + RoundMsgs(cfg, r.connections, job.ip.dst, zone) == RoundMsgs(cfg, r.connections, job.ip.dst, zone);
    assert start.pending[job.ip.dst := Entry(zone, [job], 1, r.nextTimer)] == r.pending[job.ip.dst := Entry(zone, [job], 1, r.nextTimer)];
  }

  /** In every run, the first packet for such a host opens an entry: one round of probes goes out at once,
      the packet waits, and the timer is set one second on. */
  lemma UnknownHostsAreAskedFor(cfg: Config, steps: seq<Step>, nets: seq<Net>, late: Time, k: nat)
    requires InRun(cfg, steps, nets, late, k) && k < |steps| && AsksForAHost(cfg, nets[k].router, steps[k])
    requires steps[k].frame.payload.ip.dst !in nets[k].router.pending
    ensures var s, n, n', ip := steps[k], nets[k], nets[k + 1], steps[k].frame.payload.ip.dst;
            && RoundIsSent(cfg, n, n', ip, DstZone(cfg, s), s.c.u) && n'.router.connections == n.router.connections
            && n'.router.pending == n.router.pending[ip := Entry(DstZone(cfg, s), [JobOf(s)], 1, n.router.nextTimer)]
            && n'.router.timers == n.router.timers[n.router.nextTimer := Timer(ip, s.c.u + 1.0, s.c.u)]
  {
    var s, n := steps[k], nets[k];
    var r := CrossingStep(cfg, steps, nets, late, k);
    var checked := Checked(cfg, n.router, s);
    assert r == QueueAndResolve(cfg, checked, JobOf(s), DstZone(cfg, s), s.c.u);
    OpeningChanges(cfg, checked, JobOf(s), DstZone(cfg, s), s.c.u);
    RoundIsDelivered(cfg, n, r, s.frame.payload.ip.dst, DstZone(cfg, s), s.c.u);
    DeliveryKeepsRouter(cfg, n, r, s.c.u);
  }

  /** In every run, a later packet for the same host waits behind those before it, and nothing is sent. */
  lemma LaterPacketsWaitInLine(cfg: Config, steps: seq<Step>, nets: seq<Net>, late: Time, k: nat)
    requires InRun(cfg, steps, nets, late, k) && k < |steps| && AsksForAHost(cfg, nets[k].router, steps[k])
    requires steps[k].frame.payload.ip.dst in nets[k].router.pending
    ensures var s, n, n', ip := steps[k], nets[k], nets[k + 1], steps[k].frame.payload.ip.dst;
            var entry := n.router.pending[ip];
            && Untouched(n, n') && n'.router.timers == n.router.timers && n'.router.connections == n.router.connections
            && n'.router.pending == n.router.pending[ip := entry.(queue := entry.queue + [JobOf(s)])]
  {
    var s, n := steps[k], nets[k];
    var r := CrossingStep(cfg, steps, nets, late, k);
    assert r == Enqueue(Checked(cfg, n.router, s), JobOf(s));
    PacketsAreSent(cfg, n, r, s.c.u, []);
  }

  // --- Ticks -----------------------------------------------------------------------------------

  /** The entry a timer belongs to. */
  lemma TimersHaveEntries(cfg: Config, steps: seq<Step>, nets: seq<Net>, late: Time, k: nat, id: TimerId)
    requires InRun(cfg, steps, nets, late, k) && id in nets[k].router.timers
    ensures var r, ip := nets[k].router, nets[k].router.timers[id].ip;
            ip in r.pending && r.pending[ip].timer == id && r.pending[ip].zone in cfg.gateways
  {
    RunKeepsInv(cfg, steps, nets, late, k);
    assert TimerOk(nets[k].router.pending, id, nets[k].router.timers[id], nets[k].router.nextTimer, nets[k].now, late);
  }

  lemma ProbingAgainChanges(cfg: Config, r: Router, id: TimerId, now: Time)
    requires ConfigOk(cfg) && Consistent(cfg, r) && id in r.timers && r.timers[id].ip in r.pending && r.pending[r.timers[id].ip].retries < 3
    requires r.outbox == []
    ensures var ip, r' := r.timers[id].ip, RetryArp(cfg, r, id, now);
            var entry := r.pending[ip];
            && r'.outbox == RoundMsgs(cfg, r.connections, ip, entry.zone) && r'.connections == r.connections
            && r'.pending == r.pending[ip := entry.(retries := entry.retries + 1)]
            && r'.timers == r.timers[id := r.timers[id].(due := now + 1.0)]
  {
    var ip := r.timers[id].ip;
    var again := r.(timers := r.timers[id := r.timers[id].(due := now + 1.0)]);
    assert RetryArp(cfg, r, id, now) == ProbeAgain(cfg, again, ip);
    ProbingSends(cfg, again, ip, r.pending[ip].zone, r.pending[ip].timer);
    assert [] + RoundMsgs(cfg, r.connections, ip, r.pending[ip].zone) == RoundMsgs(cfg, r.connections, ip, r.pending[ip].zone);
  }

  /** In every run, a tick below three rounds sends one more round and sets the timer one second on. */
  lemma TicksAskAgain(cfg: Config, steps: seq<Step>, nets: seq<Net>, late: Time, k: nat)
    requires InRun(cfg, steps, nets, late, k) && k < |steps| && steps[k].TimerFires? && steps[k].id in nets[k].router.timers
    requires var ip := nets[k].router.timers[steps[k].id].ip;
             ip in nets[k].router.pending && nets[k].router.pending[ip].retries < 3
    ensures var n, n', id := nets[k], nets[k + 1], steps[k].id;
            var ip := n.router.timers[id].ip;
            var entry := n.router.pending[ip];
            && RoundIsSent(cfg, n, n', ip, entry.zone, n.now) && n'.now == n.now && n'.router.connections == n.router.connections
            && n'.router.pending == n.router.pending[ip := entry.(retries := entry.retries + 1)]
            && n'.router.timers == n.router.timers[id := n.router.timers[id].(due := n.now + 1.0)]
  {
    var n, id := nets[k], steps[k].id;
    var ip := n.router.timers[id].ip;
    StepOfRun(cfg, steps, nets, late, k);
    TimersHaveEntries(cfg, steps, nets, late, k, id);
    var r' := RetryArp(cfg, n.router, id, n.now);
    ProbingAgainChanges(cfg, n.router, id, n.now);
    RoundIsDelivered(cfg, n, r', ip, n.router.pending[ip].zone, n.now);
    DeliveryKeepsRouter(cfg, n, r', n.now);
  }

  /** In every run, the tick after the third round gives up: every waiting packet is answered, in order,
      with host unreachable, and the entry and its timer are gone. */
  lemma TheLastTickAnswersEverybody(cfg: Config, steps: seq<Step>, nets: seq<Net>, late: Time, k: nat) returns (msgs: seq<Msg>)
    requires InRun(cfg, steps, nets, late, k) && k < |steps| && steps[k].TimerFires? && steps[k].id in nets[k].router.timers
    requires var ip := nets[k].router.timers[steps[k].id].ip;
             ip in nets[k].router.pending && nets[k].router.pending[ip].retries >= 3
    ensures PacketsOnly(msgs)
    ensures var n, n', id := nets[k], nets[k + 1], steps[k].id;
            var ip := n.router.timers[id].ip;
            && BecomeInOrder(cfg, n.router.connections, n.router.pending[ip].queue, n.router.pending[ip].zone, None, msgs)
            && n'.trace == n.trace + Leaving(msgs, n.now) && n'.tables == n.tables
            && n'.router.pending == n.router.pending - {ip} && n'.router.timers == n.router.timers - {id}
            && n'.router.connections == n.router.connections
  {
    var n, id := nets[k], steps[k].id;
    StepOfRun(cfg, steps, nets, late, k);
    TimersHaveEntries(cfg, steps, nets, late, k, id);
    var r' := RetryArp(cfg, n.router, id, n.now);
    msgs := GivingUpSends(cfg, n.router, id, n.now);
    PacketsAreSent(cfg, n, r', n.now, msgs);
  }

  lemma GivingUpSends(cfg: Config, r: Router, id: TimerId, now: Time) returns (msgs: seq<Msg>)
    requires ConfigOk(cfg) && Consistent(cfg, r) && id in r.timers && r.timers[id].ip in r.pending && r.outbox == []
    requires r.pending[r.timers[id].ip].retries >= 3 && r.pending[r.timers[id].ip].timer == id
    ensures var ip, r' := r.timers[id].ip, RetryArp(cfg, r, id, now);
            && r'.outbox == msgs && PacketsOnly(msgs) && r'.pending == r.pending - {ip} && r'.timers == r.timers - {id}
            && r'.connections == r.connections
            && BecomeInOrder(cfg, r.connections, r.pending[ip].queue, r.pending[ip].zone, None, msgs)
  {
    var ip := r.timers[id].ip;
    var entry := r.pending[ip];
    var removed := r.(timers := r.timers - {id}, pending := r.pending - {ip});
    msgs := GiveUpInOrder(cfg, removed, entry.queue, ip, id, entry.zone);
    GiveUpSends(cfg, removed, entry.queue, ip, id);
    GivingUpKeepsPending(cfg, removed, entry.queue, ip, id);
  }

  lemma {:induction false} GivingUpKeepsPending(cfg: Config, r: Router, queue: seq<Job>, ip: Addr, entry: TimerId)
    requires ConfigOk(cfg)
    ensures var r' := GiveUp(cfg, r, queue, ip, entry);
            r'.pending == r.pending && r'.timers == r.timers && r'.connections == r.connections
    decreases queue
  {
    if queue != [] {
      var first := ErrorIsSent(cfg, r, queue[0], ICMP_DEST_UNREACH, ICMP_CODE_HOST_UNREACH);
      var sent := Send(r, first);
      var next := sent.(released := sent.released[ip := History(sent.released, ip) + [Release(queue[0], Unreachable, entry)]]);
      GivingUpKeepsPending(cfg, next, queue[1..], ip, entry);
    }
  }

  // --- Rounds over a run -----------------------------------------------------------------------

  ghost predicate SameEntries(r: Router, r': Router) {
    r'.pending == r.pending && r'.timers == r.timers && r'.connections == r.connections
  }

  /** What a packet-in does to the entries, unless it opens or lengthens one or is a host's answer. */
  lemma OtherPacketsLeaveEntries(cfg: Config, r: Router, s: Step)
    requires ConfigOk(cfg) && DaemonAgrees(cfg) && Consistent(cfg, r) && s.Arrive? && s.via.None? && r.outbox == [] && !AsksForAHost(cfg, r, s)
    requires forall zone :: !TalksToGateway(cfg, s, 2, zone)
    ensures SameEntries(r, HandlePacketIn(cfg, r, EventOfStep(s), s.c))
  {
    if CrossesZones(cfg, s) {
      CrossingIsRouted(cfg, r, s);
      CheckingKeepsTheRest(cfg, r, s);
      if IsLetThrough(cfg, r.conns, s.frame.payload.ip, s.c.t) {
        RoutingLeavesEntries(cfg, Checked(cfg, r, s), s, DstZone(cfg, s));
      }
    } else {
      LocalPacketsLeaveEntries(cfg, r, s);
    }
  }

  lemma RoutingLeavesEntries(cfg: Config, r: Router, s: Step, zone: ZoneName)
    requires ConfigOk(cfg) && s.Arrive? && s.frame.payload.Ip? && zone in cfg.gateways && ZoneOfPort(cfg, s.dpid, s.port).Some?
    requires s.frame.payload.ip.dst in r.ipToLoc && r.outbox == []
    ensures SameEntries(r, Route(cfg, r, EventOfStep(s), zone, s.c.u))
  {
    if s.frame.payload.ip.ttl <= 1 || cfg.maps.coreDpid !in r.connections {
      var loc := r.ipToLoc[s.frame.payload.ip.dst];
      var msgs := ForwardSendsIt(cfg, r, JobOf(s), zone, loc.corePort, loc.mac);
      NoRouteSends(cfg, r, s, zone, msgs);
    } else if s.dpid == cfg.maps.coreDpid {
      RoutedAtTheCore(cfg, r, s, zone, s.c.u);
    } else {
      RoutedAtALeaf(cfg, r, s, zone, s.c.u);
    }
  }

  lemma LayerTwoLeavesEntries(cfg: Config, r: Router, e: PacketIn)
    ensures SameEntries(r, FloodInZone(cfg, r, e)) && SameEntries(r, L2Forward(cfg, r, e))
  {
    FloodingSends(cfg, r, e);
    L2Sends(cfg, r, e);
  }

  lemma LearningLeavesEntries(cfg: Config, r: Router, dpid: Dpid, port: Port, ip: Addr, mac: Mac, zone: ZoneName)
    ensures SameEntries(r, Learn(cfg, r, dpid, port, ip, mac, zone))
  {
  }

  lemma TransitLeavesEntries(cfg: Config, r: Router, e: PacketIn)
    ensures SameEntries(r, HandleTransit(cfg, r, e))
  {
    LayerTwoLeavesEntries(cfg, LearnMac(r, e.dpid, e.frame.src, e.port), e);
  }

  lemma IpLeavesEntries(cfg: Config, r: Router, s: Step)
    requires ConfigOk(cfg) && s.Arrive? && s.complete && s.frame.payload.Ip? && !CrossesZones(cfg, s) && s.via.None? && !IsLeafUplink(cfg, s.dpid, s.port)
    ensures SameEntries(r, HandleIp(cfg, r, EventOfStep(s), s.c))
  {
    var ip, zone := s.frame.payload.ip, ZoneOfPort(cfg, s.dpid, s.port);
    if zone.Some? {
      LearningLeavesEntries(cfg, r, s.dpid, s.port, ip.src, s.frame.src, zone.value);
      LayerTwoLeavesEntries(cfg, Learn(cfg, r, s.dpid, s.port, ip.src, s.frame.src, zone.value), EventOfStep(s));
    }
  }

  lemma ArpLeavesEntries(cfg: Config, r: Router, s: Step)
    requires ConfigOk(cfg) && Consistent(cfg, r) && s.Arrive? && s.complete && s.frame.payload.Arp? && s.via.None? && !IsLeafUplink(cfg, s.dpid, s.port)
    requires forall zone :: !TalksToGateway(cfg, s, 2, zone)
    ensures SameEntries(r, HandleArp(cfg, r, EventOfStep(s)))
  {
    var a, zone := s.frame.payload, ZoneOfPort(cfg, s.dpid, s.port);
    if zone.Some? && SourceValid(cfg, a.protosrc, zone.value) {
      assert !TalksToGateway(cfg, s, 2, zone.value);
      LearningLeavesEntries(cfg, r, s.dpid, s.port, a.protosrc, a.hwsrc, zone.value);
      LayerTwoLeavesEntries(cfg, Learn(cfg, r, s.dpid, s.port, a.protosrc, a.hwsrc, zone.value), EventOfStep(s));
    }
  }

  lemma LocalPacketsLeaveEntries(cfg: Config, r: Router, s: Step)
    requires ConfigOk(cfg) && Consistent(cfg, r) && s.Arrive? && s.via.None? && !CrossesZones(cfg, s)
    requires forall zone :: !TalksToGateway(cfg, s, 2, zone)
    ensures SameEntries(r, HandlePacketIn(cfg, r, EventOfStep(s), s.c))
  {
    if s.complete && !s.frame.payload.Lldp? {
      if IsLeafUplink(cfg, s.dpid, s.port) {
        TransitLeavesEntries(cfg, r, EventOfStep(s));
      } else if s.frame.payload.Ip? {
        IpLeavesEntries(cfg, r, s);
      } else if s.frame.payload.Arp? {
        ArpLeavesEntries(cfg, r, s);
      } else {
        LayerTwoLeavesEntries(cfg, r, EventOfStep(s));
      }
    }
  }

  /** A round for the entry of the address goes out in step `q`. */
  ghost predicate RoundAt(cfg: Config, nets: seq<Net>, q: nat, ip: Addr, zone: ZoneName)
    requires q + 1 < |nets|
  {
    RoundIsSent(cfg, nets[q], nets[q + 1], ip, zone, nets[q + 1].now)
  }

  /** The rounds of an entry: as many as it counts, each on the wire, a second or more apart, the last a
      second before the next is due. */
  ghost predicate RoundsMade(cfg: Config, nets: seq<Net>, i: nat, ip: Addr, at: seq<nat>)
    requires i < |nets| && ip in nets[i].router.pending
  {
    var entry, timers := nets[i].router.pending[ip], nets[i].router.timers;
    && |at| == entry.retries > 0 && AllOnTheWire(cfg, nets, i, ip, entry.zone, at) && SecondsApart(nets, at)
    && entry.timer in timers && timers[entry.timer].due == nets[at[|at| - 1] + 1].now + 1.0
  }

  ghost predicate AllOnTheWire(cfg: Config, nets: seq<Net>, i: nat, ip: Addr, zone: ZoneName, at: seq<nat>)
    requires i < |nets|
  {
    forall j :: 0 <= j < |at| ==> at[j] < i && RoundAt(cfg, nets, at[j], ip, zone)
  }

  ghost predicate SecondsApart(nets: seq<Net>, at: seq<nat>)
    requires forall j :: 0 <= j < |at| ==> at[j] + 1 < |nets|
  {
    forall j :: 0 < j < |at| ==> at[j - 1] < at[j] && nets[at[j] + 1].now - nets[at[j - 1] + 1].now >= 1.0
  }

  /** What a step does to an entry: it leaves its count and its timer alone, opens it with a first round, or
      sends one more when its timer is due. */
  datatype Change = Kept | FirstRound | NextRound

  ghost predicate Changes(cfg: Config, n: Net, n': Net, ip: Addr, change: Change)
    requires ip in n'.router.pending
  {
    var entry', timers' := n'.router.pending[ip], n'.router.timers;
    && entry'.timer in timers'
    && (change.FirstRound? ==> entry'.retries == 1)
    && (!change.FirstRound? ==>
          && ip in n.router.pending && n.router.pending[ip].timer == entry'.timer && n.router.pending[ip].zone == entry'.zone
          && entry'.timer in n.router.timers
          && entry'.retries == n.router.pending[ip].retries + if change.NextRound? then 1 else 0)
    && (change.Kept? ==> timers'[entry'.timer].due == n.router.timers[entry'.timer].due)
    && (!change.Kept? ==> RoundIsSent(cfg, n, n', ip, entry'.zone, n'.now) && timers'[entry'.timer].due == n'.now + 1.0)
    && (change.NextRound? ==> n.router.timers[entry'.timer].due <= n'.now)
  }

  lemma EntriesHaveTimers(cfg: Config, steps: seq<Step>, nets: seq<Net>, late: Time, k: nat, ip: Addr)
    requires InRun(cfg, steps, nets, late, k) && ip in nets[k].router.pending
    ensures var r := nets[k].router;
            var id := r.pending[ip].timer;
            id in r.timers && r.timers[id].ip == ip && id < r.nextTimer && 1 <= r.pending[ip].retries
  {
    RunKeepsInv(cfg, steps, nets, late, k);
    var n := nets[k];
    assert EntryOk(cfg, n.router.log, ip, n.router.pending[ip], n.router.timers, n.now, late);
    assert TimerOk(n.router.pending, n.router.pending[ip].timer, n.router.timers[n.router.pending[ip].timer], n.router.nextTimer, n.now, late);
  }

  /** A tick. */
  lemma TicksChangeEntries(cfg: Config, steps: seq<Step>, nets: seq<Net>, late: Time, k: nat, ip: Addr) returns (change: Change)
    requires InRun(cfg, steps, nets, late, k) && k < |steps| && steps[k].TimerFires? && ip in nets[k + 1].router.pending
    ensures Changes(cfg, nets[k], nets[k + 1], ip, change)
  {
    var n, id := nets[k], steps[k].id;
    StepOfRun(cfg, steps, nets, late, k);
    TimersHaveEntries(cfg, steps, nets, late, k, id);
    change := Kept;
    if n.router.pending[n.router.timers[id].ip].retries < 3 {
      TicksAskAgain(cfg, steps, nets, late, k);
      if ip == n.router.timers[id].ip {
        change := NextRound;
      }
    } else {
      var msgs := TheLastTickAnswersEverybody(cfg, steps, nets, late, k);
    }
    EntriesHaveTimers(cfg, steps, nets, late, k, ip);
  }

  /** A packet that comes to the controller. */
  lemma PacketInsChangeEntries(cfg: Config, steps: seq<Step>, nets: seq<Net>, late: Time, k: nat, ip: Addr) returns (change: Change)
    requires InRun(cfg, steps, nets, late, k) && k < |steps| && steps[k].Arrive? && steps[k].via.None? && ip in nets[k + 1].router.pending
    ensures Changes(cfg, nets[k], nets[k + 1], ip, change)
  {
    var n, s := nets[k], steps[k];
    if AsksForAHost(cfg, n.router, s) {
      change := AskersChangeEntries(cfg, steps, nets, late, k, ip);
    } else {
      change := Kept;
      if zone :| TalksToGateway(cfg, s, 2, zone) {
        AnswersChangeEntries(cfg, steps, nets, late, k, ip, zone);
      } else {
        StepOfRun(cfg, steps, nets, late, k);
        OtherPacketsLeaveEntries(cfg, n.router, s);
        DeliveryKeepsRouter(cfg, n, HandlePacketIn(cfg, n.router, EventOfStep(s), s.c), s.c.u);
      }
      EntriesHaveTimers(cfg, steps, nets, late, k, ip);
    }
  }

  lemma AskersChangeEntries(cfg: Config, steps: seq<Step>, nets: seq<Net>, late: Time, k: nat, ip: Addr) returns (change: Change)
    requires InRun(cfg, steps, nets, late, k) && k < |steps| && AsksForAHost(cfg, nets[k].router, steps[k]) && ip in nets[k + 1].router.pending
    ensures Changes(cfg, nets[k], nets[k + 1], ip, change)
  {
    var n, s := nets[k], steps[k];
    change := Kept;
    if s.frame.payload.ip.dst in n.router.pending {
      LaterPacketsWaitInLine(cfg, steps, nets, late, k);
    } else {
      UnknownHostsAreAskedFor(cfg, steps, nets, late, k);
      StepOfRun(cfg, steps, nets, late, k);
      DeliveryKeepsRouter(cfg, n, HandlePacketIn(cfg, n.router, EventOfStep(s), s.c), s.c.u);
      if ip == s.frame.payload.ip.dst {
        change := FirstRound;
        return;
      }
    }
    EntriesHaveTimers(cfg, steps, nets, late, k, ip);
  }

  lemma AnswersChangeEntries(cfg: Config, steps: seq<Step>, nets: seq<Net>, late: Time, k: nat, ip: Addr, zone: ZoneName)
    requires InRun(cfg, steps, nets, late, k) && k < |steps| && TalksToGateway(cfg, steps[k], 2, zone) && ip in nets[k + 1].router.pending
    ensures Changes(cfg, nets[k], nets[k + 1], ip, Kept)
  {
    var from := steps[k].frame.payload.protosrc;
    if from in nets[k].router.pending {
      var msgs := AnswersDrainTheQueue(cfg, steps, nets, late, k, zone);
      EntriesHaveTimers(cfg, steps, nets, late, k, from);
    } else {
      AnswersToNobodyEndThere(cfg, steps, nets, late, k, zone);
    }
    EntriesHaveTimers(cfg, steps, nets, late, k, ip);
  }

  lemma StepsChangeEntries(cfg: Config, steps: seq<Step>, nets: seq<Net>, late: Time, k: nat, ip: Addr) returns (change: Change)
    requires InRun(cfg, steps, nets, late, k) && k < |steps| && ip in nets[k + 1].router.pending
    ensures Changes(cfg, nets[k], nets[k + 1], ip, change)
  {
    var s := steps[k];
    if s.TimerFires? {
      change := TicksChangeEntries(cfg, steps, nets, late, k, ip);
    } else if s.Arrive? && s.via.None? {
      change := PacketInsChangeEntries(cfg, steps, nets, late, k, ip);
    } else {
      change := Kept;
      StepOfRun(cfg, steps, nets, late, k);
      if s.Arrive? {
        var rule := TableOf(nets[k], s.dpid)[s.via.value];
        EmittingChangesNoTable(cfg, Install(nets[k], s.dpid, s.via.value, rule.(lastHit := nets[k].now)), s.dpid, Execute(rule.actions, s.frame), true);
      }
      EntriesHaveTimers(cfg, steps, nets, late, k, ip);
    }
  }

  lemma OneMoreStep(cfg: Config, nets: seq<Net>, i: nat, ip: Addr, before: seq<nat>, change: Change) returns (at: seq<nat>)
    requires i + 1 < |nets| && ip in nets[i + 1].router.pending && Changes(cfg, nets[i], nets[i + 1], ip, change)
    requires !change.FirstRound? ==> ip in nets[i].router.pending && RoundsMade(cfg, nets, i, ip, before)
    ensures RoundsMade(cfg, nets, i + 1, ip, at)
  {
    match change
    case Kept => at := before;
    case FirstRound => at := [i]; assert RoundAt(cfg, nets, i, ip, nets[i + 1].router.pending[ip].zone);
    case NextRound => at := before + [i]; NextRoundIsMade(cfg, nets, i, ip, before);
  }

  lemma NextRoundIsMade(cfg: Config, nets: seq<Net>, i: nat, ip: Addr, before: seq<nat>)
    requires i + 1 < |nets| && ip in nets[i + 1].router.pending && Changes(cfg, nets[i], nets[i + 1], ip, NextRound)
    requires ip in nets[i].router.pending && RoundsMade(cfg, nets, i, ip, before)
    ensures RoundsMade(cfg, nets, i + 1, ip, before + [i])
  {
    assert RoundAt(cfg, nets, i, ip, nets[i + 1].router.pending[ip].zone);
    OneMoreOnTheWire(cfg, nets, i, ip, nets[i + 1].router.pending[ip].zone, before);
    OneMoreApart(nets, before, i);
  }

  lemma OneMoreOnTheWire(cfg: Config, nets: seq<Net>, i: nat, ip: Addr, zone: ZoneName, before: seq<nat>)
    requires i + 1 < |nets| && AllOnTheWire(cfg, nets, i, ip, zone, before) && RoundAt(cfg, nets, i, ip, zone)
    ensures AllOnTheWire(cfg, nets, i + 1, ip, zone, before + [i])
  {
  }

  lemma OneMoreApart(nets: seq<Net>, before: seq<nat>, i: nat)
    requires before != [] && (forall j :: 0 <= j < |before| ==> before[j] < i) && i + 1 < |nets| && SecondsApart(nets, before)
    requires nets[i + 1].now - nets[before[|before| - 1] + 1].now >= 1.0
    ensures SecondsApart(nets, before + [i])
  {
  }

  lemma ThreeRoundsTakeTime(cfg: Config, nets: seq<Net>, i: nat, ip: Addr, at: seq<nat>)
    requires i < |nets| && ip in nets[i].router.pending && RoundsMade(cfg, nets, i, ip, at) && |at| == 3
    ensures nets[at[2] + 1].now - nets[at[0] + 1].now >= 2.0
    ensures nets[i].router.timers[nets[i].router.pending[ip].timer].due == nets[at[2] + 1].now + 1.0
  {
    assert at[0] < at[1] && nets[at[1] + 1].now - nets[at[0] + 1].now >= 1.0;
    assert at[1] < at[2] && nets[at[2] + 1].now - nets[at[1] + 1].now >= 1.0;
  }

  /** In every reachable state, an entry with so many retries has just as many rounds of probes behind it,
      each of them put on the wire as the core was connected, and each a second or more after the one
      before. So whoever is told that a host is unreachable waited for three rounds and as many seconds. */
  lemma {:induction false} RoundsAreOnTheWire(cfg: Config, steps: seq<Step>, nets: seq<Net>, late: Time, i: nat, ip: Addr) returns (at: seq<nat>)
    requires InRun(cfg, steps, nets, late, i) && ip in nets[i].router.pending
    ensures RoundsMade(cfg, nets, i, ip, at)
    decreases i
  {
    var change := StepsChangeEntries(cfg, steps, nets, late, i - 1, ip);
    var before: seq<nat> := [];
    if !change.FirstRound? {
      before := RoundsAreOnTheWire(cfg, steps, nets, late, i - 1, ip);
    }
    at := OneMoreStep(cfg, nets, i - 1, ip, before, change);
  }

  /** In every run, the tick that gives a host up comes after exactly three rounds, all on the wire, the
      third a second or more before. */
  lemma GivenUpAfterThreeRounds(cfg: Config, steps: seq<Step>, nets: seq<Net>, late: Time, k: nat) returns (at: seq<nat>)
    requires InRun(cfg, steps, nets, late, k) && k < |steps| && steps[k].TimerFires? && steps[k].id in nets[k].router.timers
    requires var ip := nets[k].router.timers[steps[k].id].ip;
             ip in nets[k].router.pending && nets[k].router.pending[ip].retries >= 3
    ensures var ip := nets[k].router.timers[steps[k].id].ip;
            |at| == 3 && RoundsMade(cfg, nets, k, ip, at) && nets[k].now - nets[at[2] + 1].now >= 1.0 && nets[k].now - nets[at[0] + 1].now >= 3.0
  {
    var ip := nets[k].router.timers[steps[k].id].ip;
    StepOfRun(cfg, steps, nets, late, k);
    TimersHaveEntries(cfg, steps, nets, late, k, steps[k].id);
    PendingEntriesAreProbing(cfg, steps, nets, late, k, ip);
    at := RoundsAreOnTheWire(cfg, steps, nets, late, k, ip);
    ThreeRoundsTakeTime(cfg, nets, k, ip, at);
  }

  // --- Connections of switches -----------------------------------------------------------------

  lemma PacketInsKeepConnections(cfg: Config, steps: seq<Step>, nets: seq<Net>, late: Time, k: nat)
    requires InRun(cfg, steps, nets, late, k) && k < |steps| && steps[k].Arrive? && steps[k].via.None?
    ensures nets[k + 1].router.connections == nets[k].router.connections
  {
    var n, s := nets[k], steps[k];
    if AsksForAHost(cfg, n.router, s) {
      if s.frame.payload.ip.dst in n.router.pending {
        LaterPacketsWaitInLine(cfg, steps, nets, late, k);
      } else {
        UnknownHostsAreAskedFor(cfg, steps, nets, late, k);
      }
    } else if zone :| TalksToGateway(cfg, s, 2, zone) {
      if s.frame.payload.protosrc in n.router.pending {
        var msgs := AnswersDrainTheQueue(cfg, steps, nets, late, k, zone);
      } else {
        AnswersToNobodyEndThere(cfg, steps, nets, late, k, zone);
      }
    } else {
      StepOfRun(cfg, steps, nets, late, k);
      OtherPacketsLeaveEntries(cfg, n.router, s);
      DeliveryKeepsRouter(cfg, n, HandlePacketIn(cfg, n.router, EventOfStep(s), s.c), s.c.u);
    }
  }

  lemma StepsKeepConnections(cfg: Config, steps: seq<Step>, nets: seq<Net>, late: Time, k: nat)
    requires InRun(cfg, steps, nets, late, k) && k < |steps|
    ensures nets[k + 1].router.connections == nets[k].router.connections + if steps[k].ConnectionUp? then {steps[k].dpid} else {}
  {
    var s := steps[k];
    StepOfRun(cfg, steps, nets, late, k);
    if s.Arrive? && s.via.None? {
      PacketInsKeepConnections(cfg, steps, nets, late, k);
    } else if s.Arrive? {
      var rule := TableOf(nets[k], s.dpid)[s.via.value];
      EmittingChangesNoTable(cfg, Install(nets[k], s.dpid, s.via.value, rule.(lastHit := nets[k].now)), s.dpid, Execute(rule.actions, s.frame), true);
    } else if s.TimerFires? {
      TimersHaveEntries(cfg, steps, nets, late, k, s.id);
      if nets[k].router.pending[nets[k].router.timers[s.id].ip].retries < 3 {
        TicksAskAgain(cfg, steps, nets, late, k);
      } else {
        var msgs := TheLastTickAnswersEverybody(cfg, steps, nets, late, k);
      }
    }
  }

  /** In every reachable state, the controller talks to exactly the switches that have connected. */
  lemma {:induction false} SwitchesStayConnected(cfg: Config, steps: seq<Step>, nets: seq<Net>, late: Time, i: nat, dpid: Dpid)
    requires InRun(cfg, steps, nets, late, i)
    ensures dpid in nets[i].router.connections <==> ConnectionUp(dpid) in steps[..i]
  {
    if i > 0 {
      SwitchesStayConnected(cfg, steps, nets, late, i - 1, dpid);
      StepsKeepConnections(cfg, steps, nets, late, i - 1);
      assert steps[..i] == steps[..i - 1] + [steps[i - 1]];
    }
  }

  // --- Nothing left over -----------------------------------------------------------------------

  /** Every packet that comes to the controller is of a kind for which a result above or in Delivery and
      Routing says what becomes of it: it is dropped on purpose, comes down from the core, is talk between
      the hosts of a zone, asks a gateway or answers it, stays in its zone, or crosses to another. */
  lemma EveryPacketInIsOfAKind(cfg: Config, s: Step)
    requires ConfigOk(cfg) && s.Arrive? && s.via.None?
    ensures || IsDeadEnd(cfg, s) || ComesDown(cfg, s) || IsHostTalk(cfg, s)
            || (exists zone :: TalksToGateway(cfg, s, 1, zone) || TalksToGateway(cfg, s, 2, zone) || StaysInItsZone(cfg, s, zone))
            || CrossesZones(cfg, s)
  {
    var zone := ZoneOfPort(cfg, s.dpid, s.port);
    if zone.Some? && !IsDeadEnd(cfg, s) && !ComesDown(cfg, s) && !IsHostTalk(cfg, s) && !CrossesZones(cfg, s) {
      assert TalksToGateway(cfg, s, 1, zone.value) || TalksToGateway(cfg, s, 2, zone.value) || StaysInItsZone(cfg, s, zone.value);
    }
  }
}
