/** The 60-second bound is exact: everything the core sends between zones was checked less than the
    hard timeout before if and only if timers are served less than 19 seconds late. */
module Lateness {
  import opened Common
  import opened Ipv4
  import opened Policy
  import opened ConnTrack
  import opened OpenFlow
  import opened RouterModel
  import opened RouterInv
  import opened RouterEffects
  import opened DataPlane
  import opened Isolation
  import opened RunLog
  import opened Messages
  import opened Runs

  /** A check of this packet's connection passed less than the hard timeout before it was sent. */
  ghost predicate JustChecked(log: seq<Obs>, s: Sent)
    requires s.frame.payload.Ip?
  {
    exists j :: 0 <= j < |log| && Passes(log[j]) && Covers(log[j].ip, s.frame.payload.ip) && s.time - log[j].u < ROUTED_FLOW_HARD_TIMEOUT
  }

  predicate BetweenZones(cfg: Config, s: Sent) {
    s.dpid == cfg.maps.coreDpid && s.frame.payload.Ip? && !SameZone(cfg, s.frame.payload.ip.src, s.frame.payload.ip.dst)
  }

  /** The bound, over every run in which timers are at most `late` seconds late. */
  ghost predicate AlwaysJustChecked(cfg: Config, late: Time) {
    forall steps: seq<Step>, nets: seq<Net>, i: nat, k: nat ::
      InRun(cfg, steps, nets, late, i) && k < |nets[i].trace| && BetweenZones(cfg, nets[i].trace[k]) ==>
        JustChecked(nets[i].router.log, nets[i].trace[k])
  }

  // --- A packet that waits too long ------------------------------------------------------------

  /** The map's only entry. */
  ghost predicate Only<K, V>(m: map<K, V>, k: K, v: V) {
    k in m && m[k] == v && forall other :: other in m ==> other == k
  }

  /** One packet waits for `y`, checked and queued at time zero; its timer is next due at `due`. */
  ghost predicate Waiting(cfg: Config, n: Net, y: Addr, b: ZoneName, job: Job, retries: nat, due: Time, now: Time) {
    && Only(n.router.pending, y, Entry(b, [job], retries, 0)) && Only(n.router.timers, 0, Timer(y, due, 0.0))
    && cfg.maps.coreDpid in n.router.connections && n.router.outbox == [] && TableOf(n, cfg.maps.coreDpid) == map[]
    && |n.router.log| == 1 && n.router.log[0].u == 0.0 && n.now == now
  }

  /** A TCP packet. */
  function Segment(x: Addr, y: Addr): IpPacket {
    PacketOf(Flow(x, y, IPPROTO_TCP, 1, 1), true)
  }

  function JobOf(cfg: Config, x: Addr, y: Addr, p: Port): Job {
    Job(cfg.maps.coreDpid, p, "host", Segment(x, y))
  }

  /** The router after the switch has connected, as far as it matters here. */
  predicate Fresh(cfg: Config, r: Router) {
    && cfg.maps.coreDpid in r.connections && r.outbox == [] && r.pending == map[] && r.timers == map[] && r.nextTimer == 0
    && r.ipToLoc == map[] && r.log == [] && r.conns == map[]
  }

  lemma UnknownHostIsQueued(cfg: Config, r: Router, r': Router, e: PacketIn, x: Addr, y: Addr, a: ZoneName, b: ZoneName, p: Port)
    requires ConfigOk(cfg) && HostAt(cfg, x, a, p) && b in cfg.gateways
    requires r.outbox == [] && cfg.maps.coreDpid in r.connections && r.pending == map[] && r.timers == map[] && r.nextTimer == 0
    requires y !in r.ipToLoc && r.log == [] && cfg.allowed(a, b, false)
    requires e == PacketIn(cfg.maps.coreDpid, p, FrameOf(Segment(x, y)), true) && r' == HandleCrossZoneIp(cfg, r, e, a, b, At(0.0))
    ensures OnlySends(r'.(outbox := []), r')
    ensures Only(r'.pending, y, Entry(b, [JobOf(cfg, x, y, p)], 1, 0)) && Only(r'.timers, 0, Timer(y, 1.0, 0.0))
    ensures r'.connections == r.connections && |r'.log| == 1 && r'.log[0].u == 0.0
  {
    var checked := CheckConnection(cfg, r, e.frame.payload.ip, cfg.allowed(a, b, false), At(0.0));
    assert r' == QueueAndResolve(cfg, checked, JobOf(cfg, x, y, p), b, 0.0);
    var entered := OpenEntry(cfg, checked, y, b, 0.0);
    assert Only(entered.pending, y, Entry(b, [], 1, 0)) && [] + [JobOf(cfg, x, y, p)] == [JobOf(cfg, x, y, p)];
    assert r' == Enqueue(entered, JobOf(cfg, x, y, p));
    QueueSends(cfg, checked, r', JobOf(cfg, x, y, p), b, 0.0);
  }

  lemma SegmentIsQueued(cfg: Config, r: Router, r': Router, x: Addr, y: Addr, a: ZoneName, b: ZoneName, p: Port)
    requires ConfigOk(cfg) && HostAt(cfg, x, a, p) && SourceValid(cfg, y, b) && !IsGateway(cfg, y) && a != b && cfg.allowed(a, b, false) && Fresh(cfg, r)
    requires r' == HandlePacketIn(cfg, r, PacketIn(cfg.maps.coreDpid, p, FrameOf(Segment(x, y)), true), At(0.0))
    ensures OnlySends(r'.(outbox := []), r')
    ensures Only(r'.pending, y, Entry(b, [JobOf(cfg, x, y, p)], 1, 0)) && Only(r'.timers, 0, Timer(y, 1.0, 0.0))
    ensures r'.connections == r.connections && |r'.log| == 1 && r'.log[0].u == 0.0
  {
    var e := PacketIn(cfg.maps.coreDpid, p, FrameOf(Segment(x, y)), true);
    var learned := Learn(cfg, r, e.dpid, p, x, "host", a);
    assert y !in learned.ipToLoc;
    SegmentIsChecked(cfg, r, learned, e, x, y, a, b, p);
    UnknownHostIsQueued(cfg, learned, r', e, x, y, a, b, p);
  }

  lemma SegmentIsChecked(cfg: Config, r: Router, learned: Router, e: PacketIn, x: Addr, y: Addr, a: ZoneName, b: ZoneName, p: Port)
    requires ConfigOk(cfg) && HostAt(cfg, x, a, p) && SourceValid(cfg, y, b) && !IsGateway(cfg, y) && a != b && r.pending == map[]
    requires e == PacketIn(cfg.maps.coreDpid, p, FrameOf(Segment(x, y)), true) && learned == Learn(cfg, r, e.dpid, p, x, "host", a)
    ensures b in cfg.gateways && HandlePacketIn(cfg, r, e, At(0.0)) == HandleCrossZoneIp(cfg, learned, e, a, b, At(0.0))
  {
    CoreIsNoLeaf(cfg, p);
    assert HandlePacketIn(cfg, r, e, At(0.0)) == HandleHonestIp(cfg, learned, e, a, At(0.0));
  }

  lemma SegmentWaits(cfg: Config, n: Net, x: Addr, y: Addr, a: ZoneName, b: ZoneName, p: Port, late: Time)
    requires ConfigOk(cfg) && HostAt(cfg, x, a, p) && SourceValid(cfg, y, b) && !IsGateway(cfg, y) && a != b && cfg.allowed(a, b, false)
    requires Fresh(cfg, n.router) && TableOf(n, cfg.maps.coreDpid) == map[] && n.now == 0.0
    ensures Consistent(cfg, n.router) && Enabled(cfg, n, SeenStep(cfg, Segment(x, y), p, 0.0), late)
    ensures Waiting(cfg, Apply(cfg, n, SeenStep(cfg, Segment(x, y), p, 0.0)), y, b, JobOf(cfg, x, y, p), 1, 1.0, 0.0)
  {
    CoreIsNoLeaf(cfg, p);
    var r' := HandlePacketIn(cfg, n.router, PacketIn(cfg.maps.coreDpid, p, FrameOf(Segment(x, y)), true), At(0.0));
    SegmentIsQueued(cfg, n.router, r', x, y, a, b, p);
    OnlySendingKeepsTables(cfg, n, r'.(outbox := []), r', 0.0);
  }

  lemma TickProbes(cfg: Config, r: Router, r': Router, y: Addr, b: ZoneName, job: Job, retries: nat, due: Time, now: Time)
    requires ConfigOk(cfg) && b in cfg.gateways && retries < ARP_MAX_RETRIES
    requires Only(r.pending, y, Entry(b, [job], retries, 0)) && Only(r.timers, 0, Timer(y, due, 0.0))
    requires r' == RetryArp(cfg, r, 0, now)
    ensures OnlySends(r, r') && r'.connections == r.connections && r'.log == r.log
    ensures Only(r'.pending, y, Entry(b, [job], retries + 1, 0)) && Only(r'.timers, 0, Timer(y, now + 1.0, 0.0))
  {
    TickSends(cfg, r, r', 0, now);
    var timer := Timer(y, now + 1.0, 0.0);
    var again := r.(timers := r.timers[0 := timer]);
    assert r' == ProbeAgain(cfg, again, y);
    ProbedAgain(cfg, again, r', y, b, job, retries);
  }

  lemma ProbedAgain(cfg: Config, r: Router, r': Router, y: Addr, b: ZoneName, job: Job, retries: nat)
    requires b in cfg.gateways && Only(r.pending, y, Entry(b, [job], retries, 0)) && r' == ProbeAgain(cfg, r, y)
    ensures r'.connections == r.connections && r'.log == r.log && r'.timers == r.timers
    ensures Only(r'.pending, y, Entry(b, [job], retries + 1, 0))
  {
    ProbesChangeLittle(cfg, r, SendArpProbe(cfg, r, y, b, 0), y, b);
  }

  lemma ProbesChangeLittle(cfg: Config, r: Router, r': Router, y: Addr, b: ZoneName)
    requires b in cfg.gateways && r' == SendArpProbe(cfg, r, y, b, 0)
    ensures r'.connections == r.connections && r'.log == r.log && r'.timers == r.timers
  {
    var counted := r.(rounds := r.rounds + multiset{0});
    if cfg.maps.coreDpid in r.connections {
      assert r' == counted.(outbox := r'.outbox);
    } else {
      assert r' == counted;
    }
  }

  /** The clock runs on to `now`, and the late timer probes again. */
  lemma LateTick(cfg: Config, n: Net, y: Addr, b: ZoneName, job: Job, retries: nat, due: Time, before: Time, now: Time, late: Time)
    requires ConfigOk(cfg) && b in cfg.gateways && Waiting(cfg, n, y, b, job, retries, due, before) && retries < ARP_MAX_RETRIES
    requires before <= now && due <= now <= due + late
    ensures Consistent(cfg, n.router) && Enabled(cfg, n, Wait(now), late)
    ensures var later := Apply(cfg, n, Wait(now));
            && Consistent(cfg, later.router) && Enabled(cfg, later, TimerFires(0), late)
            && Waiting(cfg, Apply(cfg, later, TimerFires(0)), y, b, job, retries + 1, now + 1.0, now)
  {
    var later := n.(now := now);
    var r' := RetryArp(cfg, later.router, 0, now);
    TickProbes(cfg, n.router, r', y, b, job, retries, due, now);
    OnlySendingKeepsTables(cfg, later, later.router, r', now);
  }

  function Reply(cfg: Config, y: Addr, b: ZoneName): Frame
    requires b in cfg.gateways
  {
    Frame("host", cfg.gateways[b].mac, Arp(ARP_REPLY, "host", y, cfg.gateways[b].mac, cfg.gateways[b].ip))
  }

  function ReplyStep(cfg: Config, y: Addr, b: ZoneName, q: Port, now: Time): Step
    requires b in cfg.gateways
  {
    Arrive(cfg.maps.coreDpid, q, Reply(cfg, y, b), true, None, At(now))
  }

  lemma ResolvingSendsIt(cfg: Config, r: Router, y: Addr, b: ZoneName, job: Job, retries: nat)
    requires ConfigOk(cfg) && b in cfg.gateways && y in r.ipToLoc && Only(r.pending, y, Entry(b, [job], retries, 0))
    requires cfg.maps.coreDpid in r.connections && r.outbox == [] && job.ip.ttl > 1
    ensures var r' := ResolvePending(cfg, r, y, "host");
            && r'.log == r.log && |r'.outbox| == 1 && r'.outbox[0].PacketOut? && r'.outbox[0].dpid == cfg.maps.coreDpid
            && r'.outbox[0].frame.payload == Ip(job.ip.(ttl := job.ip.ttl - 1))
  {
    var resolved, q := r.(timers := r.timers - {0}, pending := r.pending - {y}), r.ipToLoc[y].corePort;
    var sent := ForwardIp(cfg, resolved, job, b, q, "host");
    var next := sent.(released := sent.released[y := History(sent.released, y) + [Release(job, Forwarded, 0)]]);
    assert [job][1..] == [];
    assert ResolvePending(cfg, r, y, "host") == ForwardAll(cfg, resolved, [job], y, 0, b, q, "host") == ForwardAll(cfg, next, [], y, 0, b, q, "host") == next;
  }

  lemma ReplyForwards(cfg: Config, r: Router, y: Addr, b: ZoneName, q: Port, job: Job, retries: nat, now: Time)
    requires ConfigOk(cfg) && HostAt(cfg, y, b, q) && Only(r.pending, y, Entry(b, [job], retries, 0))
    requires cfg.maps.coreDpid in r.connections && r.outbox == [] && job.ip.ttl > 1
    ensures var r' := HandlePacketIn(cfg, r, PacketIn(cfg.maps.coreDpid, q, Reply(cfg, y, b), true), At(now));
            && r'.log == r.log && |r'.outbox| == 1 && r'.outbox[0].PacketOut? && r'.outbox[0].dpid == cfg.maps.coreDpid
            && r'.outbox[0].frame.payload == Ip(job.ip.(ttl := job.ip.ttl - 1))
  {
    CoreIsNoLeaf(cfg, q);
    var e := PacketIn(cfg.maps.coreDpid, q, Reply(cfg, y, b), true);
    var learned := Learn(cfg, r, e.dpid, q, y, "host", b);
    LearningChecksNothing(cfg, r, e, y, "host", b);
    ResolvingSendsIt(cfg, learned, y, b, job, retries);
  }

  /** The core sends the packet long after its only check. */
  ghost predicate SentStale(cfg: Config, n: Net) {
    && n.trace != [] && BetweenZones(cfg, n.trace[|n.trace| - 1])
    && forall j :: 0 <= j < |n.router.log| ==> n.trace[|n.trace| - 1].time - n.router.log[j].u >= ROUTED_FLOW_HARD_TIMEOUT
  }

  lemma LateReplyIsStale(cfg: Config, n: Net, x: Addr, y: Addr, a: ZoneName, b: ZoneName, p: Port, q: Port, retries: nat, due: Time, now: Time, late: Time)
    requires ConfigOk(cfg) && HostAt(cfg, x, a, p) && HostAt(cfg, y, b, q) && a != b
    requires Waiting(cfg, n, y, b, JobOf(cfg, x, y, p), retries, due, now) && 60.0 <= now <= due + late
    ensures Consistent(cfg, n.router) && Enabled(cfg, n, ReplyStep(cfg, y, b, q, now), late)
    ensures SentStale(cfg, Apply(cfg, n, ReplyStep(cfg, y, b, q, now)))
  {
    CoreIsNoLeaf(cfg, q);
    ReplyForwards(cfg, n.router, y, b, q, JobOf(cfg, x, y, p), retries, now);
    var r' := HandlePacketIn(cfg, n.router, PacketIn(cfg.maps.coreDpid, q, Reply(cfg, y, b), true), At(now));
    DeliveryKeepsRouter(cfg, n, r', now);
    var quiet := n.(router := r'.(outbox := []), now := now);
    assert r'.outbox[1..] == [];
    assert ObeyAll(cfg, quiet, r'.outbox) == ObeyAll(cfg, Obey(cfg, quiet, r'.outbox[0]), []);
  }

  // --- The theorem -----------------------------------------------------------------------------

  lemma ExtendRun(cfg: Config, steps: seq<Step>, nets: seq<Net>, s: Step, late: Time) returns (steps': seq<Step>, nets': seq<Net>)
    requires ConfigOk(cfg) && IsRun(cfg, steps, nets, late)
    requires Consistent(cfg, nets[|steps|].router) && Enabled(cfg, nets[|steps|], s, late)
    ensures IsRun(cfg, steps', nets', late) && |steps'| == |steps| + 1
    ensures nets'[|steps'|] == Apply(cfg, nets[|steps|], s)
  {
    steps', nets' := steps + [s], nets + [Apply(cfg, nets[|steps|], s)];
    RunGrows(cfg, steps, nets, s, Apply(cfg, nets[|steps|], s), late);
  }

  lemma LateTickRun(cfg: Config, steps: seq<Step>, nets: seq<Net>, y: Addr, b: ZoneName, job: Job, retries: nat, due: Time, before: Time, now: Time, late: Time)
    returns (steps': seq<Step>, nets': seq<Net>)
    requires ConfigOk(cfg) && IsRun(cfg, steps, nets, late) && b in cfg.gateways
    requires Waiting(cfg, nets[|steps|], y, b, job, retries, due, before) && retries < ARP_MAX_RETRIES
    requires before <= now && due <= now <= due + late
    ensures IsRun(cfg, steps', nets', late) && Waiting(cfg, nets'[|steps'|], y, b, job, retries + 1, now + 1.0, now)
  {
    LateTick(cfg, nets[|steps|], y, b, job, retries, due, before, now, late);
    steps', nets' := ExtendRun(cfg, steps, nets, Wait(now), late);
    steps', nets' := ExtendRun(cfg, steps', nets', TimerFires(0), late);
  }

  lemma QueuedRun(cfg: Config, x: Addr, y: Addr, a: ZoneName, b: ZoneName, p: Port, late: Time) returns (steps: seq<Step>, nets: seq<Net>)
    requires ConfigOk(cfg) && HostAt(cfg, x, a, p) && SourceValid(cfg, y, b) && !IsGateway(cfg, y) && a != b && cfg.allowed(a, b, false)
    ensures IsRun(cfg, steps, nets, late) && Waiting(cfg, nets[|steps|], y, b, JobOf(cfg, x, y, p), 1, 1.0, 0.0)
  {
    steps, nets := [], [START];
    steps, nets := ExtendRun(cfg, steps, nets, ConnectionUp(cfg.maps.coreDpid), late);
    SegmentWaits(cfg, nets[|steps|], x, y, a, b, p, late);
    steps, nets := ExtendRun(cfg, steps, nets, SeenStep(cfg, Segment(x, y), p, 0.0), late);
  }

  lemma AnsweredRun(cfg: Config, steps: seq<Step>, nets: seq<Net>, x: Addr, y: Addr, a: ZoneName, b: ZoneName, p: Port, q: Port,
                    due: Time, before: Time, late: Time)
    returns (steps': seq<Step>, nets': seq<Net>)
    requires ConfigOk(cfg) && IsRun(cfg, steps, nets, late) && HostAt(cfg, x, a, p) && HostAt(cfg, y, b, q) && a != b
    requires Waiting(cfg, nets[|steps|], y, b, JobOf(cfg, x, y, p), 3, due, before) && before <= 60.0 <= due + late
    ensures IsRun(cfg, steps', nets', late) && SentStale(cfg, nets'[|steps'|])
  {
    steps', nets' := ExtendRun(cfg, steps, nets, Wait(60.0), late);
    LateReplyIsStale(cfg, nets'[|steps'|], x, y, a, b, p, q, 3, due, 60.0, late);
    steps', nets' := ExtendRun(cfg, steps', nets', ReplyStep(cfg, y, b, q, 60.0), late);
  }

  /** A packet is checked and queued at time zero, the timer fires 19 seconds late twice, and 60
      seconds after the check the host answers and the packet goes out. */
  lemma LateTimersBreakTheBound(cfg: Config, x: Addr, y: Addr, a: ZoneName, b: ZoneName, p: Port, q: Port, late: Time)
    returns (steps: seq<Step>, nets: seq<Net>)
    requires ConfigOk(cfg) && HostAt(cfg, x, a, p) && HostAt(cfg, y, b, q) && a != b && cfg.allowed(a, b, false) && late >= 19.0
    ensures IsRun(cfg, steps, nets, late) && SentStale(cfg, nets[|steps|])
  {
    var job := JobOf(cfg, x, y, p);
    steps, nets := QueuedRun(cfg, x, y, a, b, p, late);
    steps, nets := LateTickRun(cfg, steps, nets, y, b, job, 1, 1.0, 0.0, 20.0, late);
    steps, nets := LateTickRun(cfg, steps, nets, y, b, job, 2, 21.0, 20.0, 40.0, late);
    steps, nets := AnsweredRun(cfg, steps, nets, x, y, a, b, p, q, 41.0, 40.0, late);
  }

  /** Where some zone may talk to another at all, the bound holds in every run exactly when timers are
      served less than 19 seconds late. */
  lemma JustCheckedIffTimersServed(cfg: Config, x: Addr, y: Addr, a: ZoneName, b: ZoneName, p: Port, q: Port, late: Time)
    requires ConfigOk(cfg) && DaemonAgrees(cfg) && HostAt(cfg, x, a, p) && HostAt(cfg, y, b, q) && a != b && cfg.allowed(a, b, false)
    requires late >= 0.0
    ensures AlwaysJustChecked(cfg, late) <==> late < 19.0
  {
    if late < 19.0 {
      forall steps: seq<Step>, nets: seq<Net>, i: nat, k: nat
        | InRun(cfg, steps, nets, late, i) && k < |nets[i].trace| && BetweenZones(cfg, nets[i].trace[k])
        ensures JustChecked(nets[i].router.log, nets[i].trace[k])
      {
        CoreSendsWhatWasJustChecked(cfg, steps, nets, late, i, k);
      }
    } else {
      var steps, nets := LateTimersBreakTheBound(cfg, x, y, a, b, p, q, late);
      var n := nets[|steps|];
      assert InRun(cfg, steps, nets, late, |steps|);
      assert !JustChecked(n.router.log, n.trace[|n.trace| - 1]);
    }
  }
}
