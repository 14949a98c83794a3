/** What holds of everything ever sent, in every run: the firewall's guarantees end to end. */
module Isolation {
  import opened Common
  import opened Ipv4
  import opened Policy
  import opened ConnTrack
  import opened ConnHistory
  import opened OpenFlow
  import opened RouterModel
  import opened RouterInv
  import opened RouterSteps
  import opened RouterEffects
  import opened DataPlane

  /** The premises of every whole-run theorem. */
  ghost predicate InRun(cfg: Config, steps: seq<Step>, nets: seq<Net>, late: Time, i: nat) {
    ConfigOk(cfg) && DaemonAgrees(cfg) && 0.0 <= late && IsRun(cfg, steps, nets, late) && i < |nets|
  }

  /** Any possible step extends a run, whatever it is: the states a run reaches never get stuck on
      the side condition of the handlers. */
  lemma RunsExtend(cfg: Config, steps: seq<Step>, nets: seq<Net>, late: Time, s: Step)
    requires InRun(cfg, steps, nets, late, |steps|) && Enabled(cfg, nets[|steps|], s, late)
    ensures Consistent(cfg, nets[|steps|].router)
    ensures IsRun(cfg, steps + [s], nets + [Apply(cfg, nets[|steps|], s)], late)
  {
    RunKeepsInv(cfg, steps, nets, late, |steps|);
    RunGrows(cfg, steps, nets, s, Apply(cfg, nets[|steps|], s), late);
  }

  // --- Why a check passed ----------------------------------------------------------------------

  /** `log[k]` opened, with the policy's permission, the connection that packet `ip` answers. */
  ghost predicate OpenedBy(cfg: Config, log: seq<Obs>, k: nat, ip: IpPacket) {
    && k < |log| && log[k].Check? && log[k].verdict == New
    && TrackedOf(ip).Some? && TrackedOf(ip).value.mayReply
    && TrackedOf(log[k].ip).Some? && TrackedOf(log[k].ip).value.mayOpen
    && TrackedOf(log[k].ip).value.flow == TrackedOf(ip).value.flow.Reversed()
    && PolicyAllows(cfg, log[k].ip.src, log[k].ip.dst, log[k].ip.proto)
  }

  /** Check `j` passed for a reason: the policy allows its packet, or an earlier check opened the
      connection the packet answers. */
  ghost predicate Reasonable(cfg: Config, log: seq<Obs>, j: nat) {
    && j < |log| && Passes(log[j])
    && (PolicyAllows(cfg, log[j].ip.src, log[j].ip.dst, log[j].ip.proto)
        || exists k :: 0 <= k < j && OpenedBy(cfg, log, k, log[j].ip))
  }

  /** A check passes only because the policy allows the packet, or because an earlier packet that
      the policy allowed opened the connection it answers. */
  lemma PassedChecksAreJustified(cfg: Config, log: seq<Obs>, conns: Table, now: Time, j: nat)
    requires LogOk(cfg, log, conns, now) && j < |log| && Passes(log[j])
    ensures Reasonable(cfg, log, j)
  {
    var o := log[j];
    assert CheckOk(cfg, log, j);
    if !o.allowed {
      var past := EventsOf(log[..j]);
      assert past == EventsOf(log)[..j];
      assert WellTimed(past) && NotBefore(past, o.t) by {
        assert EventsOf(log)[j].t == o.t;
      }
      ReplyIsExactlyAChain(past, IDLE_TIMEOUT, o.allowed, TrackedOf(o.ip), o.t);
      var flow := TrackedOf(o.ip).value.flow.Reversed();
      var links :| Chain(past, IDLE_TIMEOUT, flow, links);
      var k := links[0];
      assert past[k] == EventOf(log[k]);
      assert CheckOk(cfg, log, k);
      assert OpenedBy(cfg, log, k, o.ip);
    }
  }

  // --- Everything sent -------------------------------------------------------------------------

  /** What was ever sent is in order, and so are the records. */
  lemma SentIsOk(cfg: Config, steps: seq<Step>, nets: seq<Net>, late: Time, i: nat, k: nat)
    requires InRun(cfg, steps, nets, late, i) && k < |nets[i].trace|
    ensures var s, r := nets[i].trace[k], nets[i].router;
            FrameOk(cfg, r.log, s.time, s.dpid, s.frame, s.out, late) && LogOk(cfg, r.log, r.conns, nets[i].now)
  {
    RunKeepsInv(cfg, steps, nets, late, i);
  }

  lemma VouchedAt(log: seq<Obs>, ip: IpPacket) returns (j: nat)
    requires Vouched(log, ip)
    ensures j < |log| && Passes(log[j]) && Covers(log[j].ip, ip)
  {
    var o :| o in log && Passes(o) && Covers(o.ip, ip);
    j :| 0 <= j < |log| && log[j] == o;
  }

  lemma VouchedRecentlyAt(log: seq<Obs>, ip: IpPacket, now: Time, late: Time) returns (j: nat)
    requires VouchedRecently(log, ip, now, late)
    ensures j < |log| && Passes(log[j]) && Covers(log[j].ip, ip) && Recent(now, log[j].u, late)
  {
    var o :| o in log && Passes(o) && Covers(o.ip, ip) && Recent(now, o.u, late);
    j :| 0 <= j < |log| && log[j] == o;
  }

  /** Every IP packet any switch ever sends, on a rule or on the controller's order, stays within
      one zone or is covered by a passed check; so the policy allows its kind between its two zones
      in its own direction, or in the other and then an earlier allowed packet opened the
      connection. */
  lemma EverythingSentIsJustified(cfg: Config, steps: seq<Step>, nets: seq<Net>, late: Time, i: nat, k: nat)
    requires InRun(cfg, steps, nets, late, i) && k < |nets[i].trace| && nets[i].trace[k].frame.payload.Ip?
    ensures var ip, log := nets[i].trace[k].frame.payload.ip, nets[i].router.log;
            || SameZone(cfg, ip.src, ip.dst)
            || exists j :: 0 <= j < |log| && Reasonable(cfg, log, j) && Covers(log[j].ip, ip)
  {
    SentIsOk(cfg, steps, nets, late, i, k);
    var n := nets[i];
    var ip, log := n.trace[k].frame.payload.ip, n.router.log;
    if !SameZone(cfg, ip.src, ip.dst) {
      var j := VouchedAt(log, ip);
      PassedChecksAreJustified(cfg, log, n.router.conns, n.now, j);
    }
  }

  lemma OpenerLinksTheZones(cfg: Config, log: seq<Obs>, m: nat, checked: IpPacket, ip: IpPacket)
    requires OpenedBy(cfg, log, m, checked) && Covers(checked, ip)
    ensures PolicyAllows(cfg, ip.dst, ip.src, ip.proto)
  {
  }

  /** Whole-run isolation: if the policy blocks a kind of packet between two different zones in both
      directions, no switch ever sends one between addresses of those zones. */
  lemma BlockedBothWaysMeansIsolated(cfg: Config, steps: seq<Step>, nets: seq<Net>, late: Time, i: nat, k: nat, a: ZoneName, b: ZoneName)
    requires InRun(cfg, steps, nets, late, i) && k < |nets[i].trace| && nets[i].trace[k].frame.payload.Ip?
    requires a != b
    requires var isIcmp := nets[i].trace[k].frame.payload.ip.proto == ConnTrack.IPPROTO_ICMP;
             !cfg.allowed(a, b, isIcmp) && !cfg.allowed(b, a, isIcmp)
    ensures var ip := nets[i].trace[k].frame.payload.ip;
            !(cfg.zoneOf(ip.src) == Some(a) && cfg.zoneOf(ip.dst) == Some(b))
  {
    EverythingSentIsJustified(cfg, steps, nets, late, i, k);
    var ip, log := nets[i].trace[k].frame.payload.ip, nets[i].router.log;
    if cfg.zoneOf(ip.src) == Some(a) && cfg.zoneOf(ip.dst) == Some(b) {
      var j :| 0 <= j < |log| && Reasonable(cfg, log, j) && Covers(log[j].ip, ip);
      var m :| 0 <= m < j && OpenedBy(cfg, log, m, log[j].ip);
      OpenerLinksTheZones(cfg, log, m, log[j].ip, ip);
      assert false;
    }
  }

  /** The two zones must differ: a packet within one zone is forwarded without asking the firewall,
      whatever the policy says about the pair of that zone with itself. It goes to the port its destination
      was seen at, with a rule for the ones like it, or is flooded if there is none. */
  lemma WithinAZoneNothingIsBlocked(cfg: Config, r: Router, e: PacketIn, zone: ZoneName, c: Readings)
    requires ConfigOk(cfg) && e.complete && e.frame.payload.Ip? && !IsLeafUplink(cfg, e.dpid, e.port)
    requires ZoneOfPort(cfg, e.dpid, e.port) == Some(zone) && SourceValid(cfg, e.frame.payload.ip.src, zone)
    requires cfg.zoneOf(e.frame.payload.ip.dst) == Some(zone) && !IsGateway(cfg, e.frame.payload.ip.dst)
    requires Consistent(cfg, r) && r.outbox == []
    ensures var r' := HandlePacketIn(cfg, r, e, c);
            var seen := PortSeen(r', e.dpid, e.frame.dst);
            && r'.log == r.log && r'.conns == r.conns
            && r'.outbox == if seen.None? then FloodMsgs(cfg, e)
                            else [FlowMod(e.dpid, MatchOf(e.frame, e.port), 30.0, 60.0, [Output(To(seen.value))], Some(e.frame))]
  {
    var learned := Learn(cfg, r, e.dpid, e.port, e.frame.payload.ip.src, e.frame.src, zone);
    LearningChecksNothing(cfg, r, e, e.frame.payload.ip.src, e.frame.src, zone);
    assert HandlePacketIn(cfg, r, e, c) == HandleHonestIp(cfg, learned, e, zone, c) == L2Forward(cfg, learned, e);
    L2Sends(cfg, learned, e);
  }

  // --- What the core sends ---------------------------------------------------------------------

  /** A passed check that speaks for a packet was made for its very ports, or else the policy itself
      allows the packet: a check without ports to track passes only if allowed. */
  lemma PortsAgreeOrAllowed(cfg: Config, log: seq<Obs>, conns: Table, now: Time, j: nat, ip: IpPacket)
    requires LogOk(cfg, log, conns, now) && j < |log| && Passes(log[j]) && Covers(log[j].ip, ip)
    ensures SameConnection(log[j].ip, ip) || PolicyAllows(cfg, ip.src, ip.dst, ip.proto)
  {
  }

  /** Every cross-zone packet the core sends at time t, by a rule or on the controller's order, is
      covered by a check that passed recently, and leaves toward the zone of its destination. Recently
      means less than the hard timeout before t, unless some timer can be 19 seconds late or more: then
      a queued packet may have waited for as long as three probe rounds take. The check was made for the
      packet's own ports, unless the policy itself allows packets between the two addresses. */
  lemma CoreSendsWhatWasJustChecked(cfg: Config, steps: seq<Step>, nets: seq<Net>, late: Time, i: nat, k: nat)
    requires InRun(cfg, steps, nets, late, i) && k < |nets[i].trace| && nets[i].trace[k].frame.payload.Ip?
    requires nets[i].trace[k].dpid == cfg.maps.coreDpid
    requires !SameZone(cfg, nets[i].trace[k].frame.payload.ip.src, nets[i].trace[k].frame.payload.ip.dst)
    ensures var s, log := nets[i].trace[k], nets[i].router.log;
            && (exists j :: 0 <= j < |log| && Passes(log[j]) && Covers(log[j].ip, s.frame.payload.ip)
                            && Recent(s.time, log[j].u, late)
                            && (late < 19.0 ==> s.time - log[j].u < ROUTED_FLOW_HARD_TIMEOUT)
                            && (SameConnection(log[j].ip, s.frame.payload.ip)
                                || PolicyAllows(cfg, s.frame.payload.ip.src, s.frame.payload.ip.dst, s.frame.payload.ip.proto)))
            && Toward(cfg, s.out, s.frame.payload.ip.dst)
  {
    SentIsOk(cfg, steps, nets, late, i, k);
    var s, log := nets[i].trace[k], nets[i].router.log;
    var j := VouchedRecentlyAt(log, s.frame.payload.ip, s.time, late);
    PortsAgreeOrAllowed(cfg, log, nets[i].router.conns, nets[i].now, j, s.frame.payload.ip);
  }

  // --- Tables and queues -----------------------------------------------------------------------

  /** In every reachable state a stored location is a core port of the zone its address belongs to,
      and no gateway address has a location. */
  lemma LocationsAreSound(cfg: Config, steps: seq<Step>, nets: seq<Net>, late: Time, i: nat, ip: Addr)
    requires InRun(cfg, steps, nets, late, i) && ip in nets[i].router.ipToLoc
    ensures var loc := nets[i].router.ipToLoc[ip];
            && loc.corePort in cfg.maps.corePortZones
            && cfg.zoneOf(ip) == Some(loc.zone) && loc.zone == cfg.maps.corePortZones[loc.corePort]
            && !IsGateway(cfg, ip)
  {
    RunKeepsInv(cfg, steps, nets, late, i);
  }

  /** In every reachable state, for every destination: the packets queued so far are those released
      so far, in the same order, followed by those still waiting. */
  lemma QueuesConservePackets(cfg: Config, steps: seq<Step>, nets: seq<Net>, late: Time, i: nat, ip: Addr)
    requires InRun(cfg, steps, nets, late, i)
    ensures var r := nets[i].router;
            History(r.queued, ip) == JobsOf(History(r.released, ip)) + QueueOf(r.pending, ip)
  {
    RunKeepsInv(cfg, steps, nets, late, i);
  }

  /** A waiting packet is exactly the packet that passed its check, its TTL untouched. */
  lemma WaitingPacketsAreUntouched(cfg: Config, steps: seq<Step>, nets: seq<Net>, late: Time, i: nat, ip: Addr, k: nat)
    requires InRun(cfg, steps, nets, late, i) && ip in nets[i].router.pending && k < |nets[i].router.pending[ip].queue|
    ensures var r := nets[i].router;
            exists o :: o in r.log && Passes(o) && o.ip == r.pending[ip].queue[k].ip
  {
    RunKeepsInv(cfg, steps, nets, late, i);
    var r := nets[i].router;
    assert EntryOk(cfg, r.log, ip, r.pending[ip], r.timers, nets[i].now, late);
    assert JobOk(cfg, r.log, r.pending[ip].queue[k], ip, r.timers[r.pending[ip].timer].started);
  }

  /** In every reachable state a pending entry has packets waiting, exactly one live timer, and a
      retry count equal to the probe rounds it has sent, between one and three. */
  lemma PendingEntriesAreProbing(cfg: Config, steps: seq<Step>, nets: seq<Net>, late: Time, i: nat, ip: Addr)
    requires InRun(cfg, steps, nets, late, i) && ip in nets[i].router.pending
    ensures var r := nets[i].router;
            var entry := r.pending[ip];
            && entry.queue != []
            && (forall id :: id in r.timers && r.timers[id].ip == ip <==> id == entry.timer)
            && r.rounds[entry.timer] == entry.retries && 1 <= entry.retries <= ARP_MAX_RETRIES
  {
    RunKeepsInv(cfg, steps, nets, late, i);
    var n := nets[i];
    var r := n.router;
    assert EntryOk(cfg, r.log, ip, r.pending[ip], r.timers, n.now, late);
    forall id | id in r.timers && r.timers[id].ip == ip ensures id == r.pending[ip].timer {
      assert TimerOk(r.pending, id, r.timers[id], r.nextTimer, n.now, late);
    }
  }

  /** No entry ever sends more than three rounds, and every packet answered with host-unreachable
      waited in an entry that sent exactly three. */
  lemma GivingUpTakesThreeRounds(cfg: Config, steps: seq<Step>, nets: seq<Net>, late: Time, i: nat, ip: Addr, k: nat)
    requires InRun(cfg, steps, nets, late, i)
    requires k < |History(nets[i].router.released, ip)| && History(nets[i].router.released, ip)[k].fate.Unreachable?
    ensures nets[i].router.rounds[History(nets[i].router.released, ip)[k].entry] == ARP_MAX_RETRIES
    ensures forall id :: nets[i].router.rounds[id] <= ARP_MAX_RETRIES
  {
    RunKeepsInv(cfg, steps, nets, late, i);
  }

  /** A tick of a live timer counts one round closer to giving up... */
  lemma TicksProbeAgain(cfg: Config, r: Router, id: TimerId, now: Time, late: Time)
    requires ConfigOk(cfg) && RouterOk(cfg, r, now, late) && r.outbox == [] && id in r.timers && Consistent(cfg, r)
    requires r.timers[id].ip in r.pending && r.pending[r.timers[id].ip].retries < ARP_MAX_RETRIES
    ensures var ip, r' := r.timers[id].ip, RetryArp(cfg, r, id, now);
            && r'.pending == r.pending[ip := r.pending[ip].(retries := r.pending[ip].retries + 1)] && id in r'.timers
            && r'.rounds == r.rounds + multiset{id} && r'.released == r.released
  {
    assert TimerOk(r.pending, id, r.timers[id], r.nextTimer, now, late);
    ProbingTickChanges(cfg, r, RetryArp(cfg, r, id, now), id, now, late);
  }

  /** ...and at three it gives up: the entry is removed with its timer and its whole queue released
      as unreachable, in order. So three minus the retry count is a measure that every tick lowers. */
  lemma TheThirdTickGivesUp(cfg: Config, r: Router, id: TimerId, now: Time, late: Time)
    requires ConfigOk(cfg) && RouterOk(cfg, r, now, late) && r.outbox == [] && id in r.timers && Consistent(cfg, r)
    requires r.timers[id].ip in r.pending && r.pending[r.timers[id].ip].retries == ARP_MAX_RETRIES
    ensures var ip, r' := r.timers[id].ip, RetryArp(cfg, r, id, now);
            && r'.pending == r.pending - {ip} && r'.timers == r.timers - {id} && r'.rounds == r.rounds
            && History(r'.released, ip) == History(r.released, ip) + Released(r.pending[ip].queue, Unreachable, id)
  {
    var ip := r.timers[id].ip;
    var entry := r.pending[ip];
    assert TimerOk(r.pending, id, r.timers[id], r.nextTimer, now, late);
    assert EntryOk(cfg, r.log, ip, entry, r.timers, now, late);
    forall k | 0 <= k < |entry.queue| ensures FromItsZone(cfg, entry.queue[k]) {
      assert JobOk(cfg, r.log, entry.queue[k], ip, r.timers[entry.timer].started);
    }
    GiveUpIsOk(cfg, r.(timers := r.timers - {entry.timer}, pending := r.pending - {ip}), entry.queue, ip, entry.timer, now, late);
  }
}
