/** What every handler of the router keeps, and what every message it sends satisfies. */
module RouterInv {
  import opened Common
  import opened Ipv4
  import opened ConnTrack
  import opened ConnHistory
  import opened OpenFlow
  import opened RouterModel

  // --- The firewall's records ------------------------------------------------------------------

  /** The stateless verdict of the policy on a packet, by its addresses. */
  predicate PolicyAllows(cfg: Config, src: Addr, dst: Addr, proto: nat) {
    && cfg.zoneOf(src).Some? && cfg.zoneOf(dst).Some?
    && cfg.allowed(cfg.zoneOf(src).value, cfg.zoneOf(dst).value, proto == ConnTrack.IPPROTO_ICMP)
  }

  /** The daemon gives the policy's verdict on every pair of addresses. */
  ghost predicate DaemonAgrees(cfg: Config) {
    && (forall src, dst :: cfg.daemon(src, dst, ConnTrack.IPPROTO_ICMP) == PolicyAllows(cfg, src, dst, ConnTrack.IPPROTO_ICMP))
    && (forall src, dst :: cfg.daemon(src, dst, 0) == PolicyAllows(cfg, src, dst, 0))
  }

  predicate SameZone(cfg: Config, src: Addr, dst: Addr) {
    cfg.zoneOf(src).Some? && cfg.zoneOf(src) == cfg.zoneOf(dst)
  }

  function EventOf(o: Obs): Event {
    match o
    case Check(ip, allowed, _, t, s, _) => Checked(allowed, TrackedOf(ip), t, s)
    case Sweep(readings, t, u) => Swept(readings, t, u)
  }

  function EventsOf(log: seq<Obs>): seq<Event> {
    seq(|log|, i requires 0 <= i < |log| => EventOf(log[i]))
  }

  /** A recorded check crossed zones, was given the policy's verdict, and answered from the table
      its past had left. */
  ghost predicate CheckOk(cfg: Config, log: seq<Obs>, i: nat)
    requires i < |log| && log[i].Check?
  {
    var o := log[i];
    && cfg.zoneOf(o.ip.src).Some? && cfg.zoneOf(o.ip.dst).Some? && !SameZone(cfg, o.ip.src, o.ip.dst)
    && o.allowed == PolicyAllows(cfg, o.ip.src, o.ip.dst, o.ip.proto)
    && o.verdict == VerdictOf(Run(EventsOf(log[..i]), IDLE_TIMEOUT), IDLE_TIMEOUT, o.allowed, TrackedOf(o.ip), o.t)
  }

  ghost predicate LogOk(cfg: Config, log: seq<Obs>, conns: Table, now: Time) {
    && WellTimed(EventsOf(log)) && NotBefore(EventsOf(log), now)
    && conns == Run(EventsOf(log), IDLE_TIMEOUT)
    && forall i :: 0 <= i < |log| && log[i].Check? ==> CheckOk(cfg, log, i)
  }

  lemma LogGrows(cfg: Config, log: seq<Obs>, conns: Table, now: Time, o: Obs)
    requires LogOk(cfg, log, conns, now) && EventTimed(EventOf(o)) && now <= o.t && EventOf(o).u <= o.u
    requires o.Check? ==> CheckOk(cfg, log + [o], |log|)
    ensures LogOk(cfg, log + [o], Step(conns, IDLE_TIMEOUT, EventOf(o)), o.u)
  {
    var events, longer := EventsOf(log), EventsOf(log + [o]);
    assert longer == events + [EventOf(o)];
    assert longer[..|longer| - 1] == events;
    forall i | 0 <= i < |log| && log[i].Check?
      ensures CheckOk(cfg, log + [o], i)
    {
      assert (log + [o])[..i] == log[..i];
      assert CheckOk(cfg, log, i);
    }
  }

  // --- Vouching --------------------------------------------------------------------------------

  predicate Passes(o: Obs) {
    o.Check? && o.verdict != Drop
  }

  /** The check of packet `a` speaks for packet `b`: same addresses and protocol, and same transport
      fields (ports, or ICMP type and code) unless POX could not parse them in `a`. */
  predicate Covers(a: IpPacket, b: IpPacket) {
    && a.src == b.src && a.dst == b.dst && a.proto == b.proto
    && (HasTransport(a.proto) && a.parsed ==> a.tpSrc == b.tpSrc && a.tpDst == b.tpDst)
  }

  predicate CoversMatch(a: IpPacket, m: Match) {
    && m.nw == Some((a.src, a.dst, a.proto))
    && m.tp == if HasTransport(a.proto) && a.parsed then Some((a.tpSrc, a.tpDst)) else None
  }

  /** Some passed check speaks for the packet. */
  ghost predicate Vouched(log: seq<Obs>, ip: IpPacket) {
    exists o :: o in log && Passes(o) && Covers(o.ip, ip)
  }

  /** The longest a packet can wait in a queue when every timer is served at most `late` seconds
      after it is due. */
  function LongestWait(late: Time): Time {
    ARP_MAX_RETRIES as real * (ARP_RETRY_INTERVAL + late)
  }

  /** A check at time `u` is recent at `now` if a rule made then is still there, or a packet queued
      then may still wait. */
  predicate Recent(now: Time, u: Time, late: Time) {
    now - u < ROUTED_FLOW_HARD_TIMEOUT || now - u <= LongestWait(late)
  }

  ghost predicate VouchedRecently(log: seq<Obs>, ip: IpPacket, now: Time, late: Time) {
    exists o :: o in log && Passes(o) && Covers(o.ip, ip) && Recent(now, o.u, late)
  }

  ghost predicate MatchVouched(log: seq<Obs>, m: Match, at: Time) {
    exists o :: o in log && Passes(o) && CoversMatch(o.ip, m) && o.u == at
  }

  /** The check that was made at that time for the connection of the match refused it. */
  ghost predicate MatchRefused(log: seq<Obs>, m: Match, at: Time) {
    exists o :: o in log && o.Check? && o.verdict == Drop && CoversMatch(o.ip, m) && o.u == at
  }

  // --- Messages --------------------------------------------------------------------------------

  predicate Toward(cfg: Config, out: OutPort, dst: Addr) {
    out.To? && out.port in cfg.maps.corePortZones && cfg.zoneOf(dst) == Some(cfg.maps.corePortZones[out.port])
  }

  /** A frame that may leave switch `dpid` through `out`: not IP, within one zone, or vouched for;
      and from the core, recently vouched for and toward its destination's zone. */
  ghost predicate FrameOk(cfg: Config, log: seq<Obs>, now: Time, dpid: Dpid, f: Frame, out: OutPort, late: Time) {
    f.payload.Ip? ==>
      var ip := f.payload.ip;
      || SameZone(cfg, ip.src, ip.dst)
      || (Vouched(log, ip)
          && (dpid == cfg.maps.coreDpid ==>
                VouchedRecently(log, ip, now, late) && Toward(cfg, out, ip.dst)))
  }

  /** A frame that may arrive over a leaf's uplink. */
  ghost predicate TransitOk(cfg: Config, log: seq<Obs>, f: Frame) {
    f.payload.Ip? ==> SameZone(cfg, f.payload.ip.src, f.payload.ip.dst) || Vouched(log, f.payload.ip)
  }

  /** A core rule for a cross-zone connection rewrites, decrements and sends toward the zone of the
      destination, which is not where the packets come in. */
  predicate RoutesTo(cfg: Config, m: Match, actions: seq<Action>, dst: Addr) {
    && |actions| == 4 && actions[3].Output? && Toward(cfg, actions[3].out, dst)
    && actions[1].SetDlDst?
    && cfg.zoneOf(dst).Some? && cfg.zoneOf(dst).value in cfg.gateways
    && actions == RouteActions(cfg.gateways[cfg.zoneOf(dst).value].mac, actions[1].mac, actions[3].out.port)
    && actions[3].out != To(m.inPort)
  }

  /** A rule installed at time `at`: within one zone, or dropping a connection whose check failed at
      that very time, for at most the drop timeout, or passing on one whose check passed then, for at
      most the hard timeout. No rule takes a broadcast that is not IP. */
  ghost predicate RuleOk(cfg: Config, log: seq<Obs>, at: Time, dpid: Dpid, m: Match, hard: Time, actions: seq<Action>) {
    && (!m.dlType.TypeIp? ==> !IsMulticast(m.dlDst))
    && (!IsLeafUplink(cfg, dpid, m.inPort) && m.dlType.TypeIp? ==>
      && m.nw.Some?
      && (|| SameZone(cfg, m.nw.value.0, m.nw.value.1)
          || (actions == [] && MatchRefused(log, m, at) && hard <= DROP_FLOW_HARD_TIMEOUT)
          || (&& actions != [] && MatchVouched(log, m, at) && hard <= ROUTED_FLOW_HARD_TIMEOUT
              && (dpid == cfg.maps.coreDpid ==> RoutesTo(cfg, m, actions, m.nw.value.1)))))
  }

  ghost predicate MsgOk(cfg: Config, log: seq<Obs>, now: Time, m: Msg, late: Time) {
    match m
    case PacketOut(dpid, f, out) => FrameOk(cfg, log, now, dpid, f, out, late)
    case FlowMod(dpid, mt, _, hard, actions, data) =>
      && RuleOk(cfg, log, now, dpid, mt, hard, actions)
      && (data.Some? ==> (dpid == cfg.maps.coreDpid && data.value.payload.Ip? ==> SameZone(cfg, data.value.payload.ip.src, data.value.payload.ip.dst))
                         && TransitOk(cfg, log, data.value))
  }

  ghost predicate OutboxOk(cfg: Config, log: seq<Obs>, now: Time, outbox: seq<Msg>, late: Time) {
    forall i :: 0 <= i < |outbox| ==> MsgOk(cfg, log, now, outbox[i], late)
  }

  // --- Locations -------------------------------------------------------------------------------

  /** A stored location is the core port of the zone the address belongs to, and no gateway has one. */
  ghost predicate LocationsOk(cfg: Config, ipToLoc: map<Addr, Location>) {
    forall ip :: ip in ipToLoc ==>
      var loc := ipToLoc[ip];
      && loc.corePort in cfg.maps.corePortZones && cfg.maps.corePortZones[loc.corePort] == loc.zone
      && cfg.zoneOf(ip) == Some(loc.zone) && !IsGateway(cfg, ip)
  }

  // --- Pending entries -------------------------------------------------------------------------

  /** The longest an entry with `k` probe rounds can have lived when every tick is at most `late`
      seconds late. */
  function Budget(k: nat, late: Time): Time {
    if k == 0 then 0.0 else Budget(k - 1, late) + ARP_RETRY_INTERVAL + late
  }

  predicate FromItsZone(cfg: Config, job: Job) {
    cfg.zoneOf(job.ip.src).Some? && cfg.zoneOf(job.ip.src) == ZoneOfPort(cfg, job.dpid, job.port)
  }

  /** A queued packet passed the check, unchanged, after its entry was opened. */
  ghost predicate JobOk(cfg: Config, log: seq<Obs>, job: Job, ip: Addr, since: Time) {
    && job.ip.dst == ip && FromItsZone(cfg, job)
    && exists o :: o in log && Passes(o) && o.ip == job.ip && o.u >= since
  }

  ghost predicate EntryOk(cfg: Config, log: seq<Obs>, ip: Addr, entry: Entry, timers: map<TimerId, Timer>, now: Time, late: Time) {
    && cfg.zoneOf(ip) == Some(entry.zone)
    && entry.queue != [] && 1 <= entry.retries <= ARP_MAX_RETRIES
    && entry.timer in timers && timers[entry.timer].ip == ip && timers[entry.timer].started <= now
    && timers[entry.timer].due + late <= timers[entry.timer].started + Budget(entry.retries, late)
    && forall k :: 0 <= k < |entry.queue| ==> JobOk(cfg, log, entry.queue[k], ip, timers[entry.timer].started)
  }

  ghost predicate TimerOk(pending: map<Addr, Entry>, id: TimerId, timer: Timer, nextTimer: TimerId, now: Time, late: Time) {
    && id < nextTimer && timer.ip in pending && pending[timer.ip].timer == id
    && now <= timer.due + late
  }

  /** Entries and live timers are in one-to-one correspondence. */
  ghost predicate PendingOk(cfg: Config, log: seq<Obs>, pending: map<Addr, Entry>, timers: map<TimerId, Timer>, nextTimer: TimerId, now: Time, late: Time) {
    && (forall ip :: ip in pending ==> EntryOk(cfg, log, ip, pending[ip], timers, now, late))
    && (forall id :: id in timers ==> TimerOk(pending, id, timers[id], nextTimer, now, late))
  }

  // --- Histories -------------------------------------------------------------------------------

  function JobsOf(releases: seq<Release>): seq<Job> {
    seq(|releases|, i requires 0 <= i < |releases| => releases[i].job)
  }

  function QueueOf(pending: map<Addr, Entry>, ip: Addr): seq<Job> {
    if ip in pending then pending[ip].queue else []
  }

  /** First in, first out, nothing lost and nothing twice: for each destination, the packets queued
      are the packets released, in order, followed by the packets still in the queue. */
  ghost predicate Conserved(r: Router) {
    forall ip :: History(r.queued, ip) == JobsOf(History(r.released, ip)) + QueueOf(r.pending, ip)
  }

  /** Probe rounds are counted by `retries`, never exceed three, and were exactly three for every
      packet that was given up. */
  ghost predicate RoundsOk(r: Router) {
    && (forall ip :: ip in r.pending ==> r.rounds[r.pending[ip].timer] == r.pending[ip].retries)
    && (forall id :: r.rounds[id] <= ARP_MAX_RETRIES && (id >= r.nextTimer ==> r.rounds[id] == 0))
    && (forall ip, k :: 0 <= k < |History(r.released, ip)| && History(r.released, ip)[k].fate.Unreachable?
                        ==> r.rounds[History(r.released, ip)[k].entry] == ARP_MAX_RETRIES)
  }

  /** The whole invariant of the router. */
  ghost predicate RouterOk(cfg: Config, r: Router, now: Time, late: Time) {
    && LogOk(cfg, r.log, r.conns, now)
    && LocationsOk(cfg, r.ipToLoc)
    && PendingOk(cfg, r.log, r.pending, r.timers, r.nextTimer, now, late)
    && Conserved(r) && RoundsOk(r)
  }
}
