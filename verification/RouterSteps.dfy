/** Every handler keeps the router's invariant and sends only messages that satisfy theirs. */
module RouterSteps {
  import opened Common
  import opened Ipv4
  import opened Policy
  import opened ConnTrack
  import opened OpenFlow
  import opened RouterModel
  import opened RouterInv

  // --- Sending ---------------------------------------------------------------------------------

  lemma {:induction false} OutAllSends(dpid: Dpid, f: Frame, ports: seq<Port>, except: Option<Port>)
    ensures forall i :: 0 <= i < |OutAll(dpid, f, ports, except)| ==>
              var m := OutAll(dpid, f, ports, except)[i];
              m.PacketOut? && m.dpid == dpid && m.frame == f && m.out.To? && m.out.port in ports && except != Some(m.out.port)
  {
    if ports != [] {
      OutAllSends(dpid, f, ports[1..], except);
    }
  }

  lemma FloodIsOk(cfg: Config, r: Router, e: PacketIn, now: Time, late: Time)
    requires OutboxOk(cfg, r.log, now, r.outbox, late)
    requires e.frame.payload.Ip? ==> SameZone(cfg, e.frame.payload.ip.src, e.frame.payload.ip.dst)
                                     || (e.dpid != cfg.maps.coreDpid && Vouched(r.log, e.frame.payload.ip))
    ensures var r' := FloodInZone(cfg, r, e);
            r' == r.(outbox := r'.outbox) && OutboxOk(cfg, r.log, now, r'.outbox, late)
  {
    var zone := Get(cfg.maps.corePortZones, e.port);
    if e.dpid == cfg.maps.coreDpid && zone.Some? {
      OutAllSends(e.dpid, e.frame, PortsOfZone(cfg, zone.value), Some(e.port));
    }
  }

  lemma L2ForwardIsOk(cfg: Config, r: Router, e: PacketIn, now: Time, late: Time)
    requires OutboxOk(cfg, r.log, now, r.outbox, late) && (!e.frame.payload.Ip? ==> !IsMulticast(e.frame.dst))
    requires e.frame.payload.Ip? ==> SameZone(cfg, e.frame.payload.ip.src, e.frame.payload.ip.dst)
                                     || (e.dpid != cfg.maps.coreDpid && IsLeafUplink(cfg, e.dpid, e.port) && Vouched(r.log, e.frame.payload.ip))
    ensures var r' := L2Forward(cfg, r, e);
            r' == r.(outbox := r'.outbox) && OutboxOk(cfg, r.log, now, r'.outbox, late)
  {
    FloodIsOk(cfg, r, e, now, late);
  }

  lemma ForwardingDownIsOk(cfg: Config, r: Router, r': Router, e: PacketIn, now: Time, late: Time)
    requires MapsOk(cfg.maps) && OutboxOk(cfg, r.log, now, r.outbox, late)
    requires IsLeafUplink(cfg, e.dpid, e.port) && TransitOk(cfg, r.log, e.frame)
    requires r' == if IsMulticast(e.frame.dst) then FloodInZone(cfg, r, e) else L2Forward(cfg, r, e)
    ensures r' == r.(outbox := r'.outbox) && OutboxOk(cfg, r.log, now, r'.outbox, late)
  {
    assert e.dpid in cfg.maps.switchZone.Keys;
    if IsMulticast(e.frame.dst) {
      FloodIsOk(cfg, r, e, now, late);
    } else {
      L2ForwardIsOk(cfg, r, e, now, late);
    }
  }

  lemma TransitIsOk(cfg: Config, r: Router, r': Router, e: PacketIn, now: Time, late: Time)
    requires MapsOk(cfg.maps) && OutboxOk(cfg, r.log, now, r.outbox, late)
    requires IsLeafUplink(cfg, e.dpid, e.port) && TransitOk(cfg, r.log, e.frame)
    requires r' == HandleTransit(cfg, r, e)
    ensures r' == r.(outbox := r'.outbox, macTable := r'.macTable) && OutboxOk(cfg, r.log, now, r'.outbox, late)
  {
    var learned := LearnMac(r, e.dpid, e.frame.src, e.port);
    assert learned == r.(macTable := learned.macTable);
    ForwardingDownIsOk(cfg, learned, r', e, now, late);
  }

  lemma ProbeIsOk(cfg: Config, r: Router, ip: Addr, zone: ZoneName, entry: TimerId, now: Time, late: Time)
    requires OutboxOk(cfg, r.log, now, r.outbox, late) && zone in cfg.gateways
    ensures var r' := SendArpProbe(cfg, r, ip, zone, entry);
            r' == r.(outbox := r'.outbox, rounds := r.rounds + multiset{entry}) && OutboxOk(cfg, r.log, now, r'.outbox, late)
  {
    OutAllSends(cfg.maps.coreDpid, ProbeFrame(cfg.gateways[zone], ip), PortsOfZone(cfg, zone), None);
  }

  lemma MoreIsOk(cfg: Config, r: Router, msgs: seq<Msg>, now: Time, late: Time)
    requires OutboxOk(cfg, r.log, now, r.outbox, late) && OutboxOk(cfg, r.log, now, msgs, late)
    ensures OutboxOk(cfg, r.log, now, Send(r, msgs).outbox, late)
  {
  }

  /** An ICMP error goes from the gateway of the sender's own zone to the sender. */
  lemma IcmpErrorIsOk(cfg: Config, r: Router, job: Job, icmpType: nat, code: nat, now: Time, late: Time)
    requires ConfigOk(cfg) && OutboxOk(cfg, r.log, now, r.outbox, late) && FromItsZone(cfg, job)
    ensures var r' := SendIcmpError(cfg, r, job, icmpType, code);
            r' == r.(outbox := r'.outbox) && OutboxOk(cfg, r.log, now, r'.outbox, late)
  {
    var zone := ZoneOfPort(cfg, job.dpid, job.port);
    if zone.Some? {
      var m := PacketOut(job.dpid, IcmpErrorFrame(cfg.gateways[zone.value], job, icmpType, code), To(job.port));
      assert MsgOk(cfg, r.log, now, m, late);
      MoreIsOk(cfg, r, [m], now, late);
    }
  }

  /** The packet may be forwarded toward `out`: it passed the check less than the hard timeout ago. */
  ghost predicate Forwardable(cfg: Config, log: seq<Obs>, job: Job, zone: ZoneName, out: Port, now: Time, late: Time) {
    && FromItsZone(cfg, job) && cfg.zoneOf(job.ip.dst) == Some(zone)
    && out in cfg.maps.corePortZones && cfg.maps.corePortZones[out] == zone
    && exists o :: o in log && Passes(o) && o.ip == job.ip && Recent(now, o.u, late)
  }

  lemma RoutedFrameIsOk(cfg: Config, log: seq<Obs>, job: Job, zone: ZoneName, out: Port, mac: Mac, now: Time, late: Time)
    requires Forwardable(cfg, log, job, zone, out, now, late) && job.ip.ttl > 1
    ensures FrameOk(cfg, log, now, cfg.maps.coreDpid, Frame(mac, mac, Ip(job.ip.(ttl := job.ip.ttl - 1))), To(out), late)
  {
  }

  lemma ForwardIsOk(cfg: Config, r: Router, job: Job, zone: ZoneName, out: Port, mac: Mac, now: Time, late: Time)
    requires ConfigOk(cfg) && OutboxOk(cfg, r.log, now, r.outbox, late) && zone in cfg.gateways
    requires Forwardable(cfg, r.log, job, zone, out, now, late)
    ensures var r' := ForwardIp(cfg, r, job, zone, out, mac);
            r' == r.(outbox := r'.outbox) && OutboxOk(cfg, r.log, now, r'.outbox, late)
  {
    if job.ip.ttl <= 1 {
      IcmpErrorIsOk(cfg, r, job, ICMP_TIME_EXCEEDED, ICMP_CODE_TTL_EXCEEDED, now, late);
    } else if cfg.maps.coreDpid in r.connections {
      var m := PacketOut(cfg.maps.coreDpid, Frame(cfg.gateways[zone].mac, mac, Ip(job.ip.(ttl := job.ip.ttl - 1))), To(out));
      RoutedFrameIsOk(cfg, r.log, job, zone, out, mac, now, late);
      MoreIsOk(cfg, r, [m], now, late);
    }
  }

  // --- Leaving the queue -----------------------------------------------------------------------

  function Released(queue: seq<Job>, fate: Fate, entry: TimerId): seq<Release> {
    seq(|queue|, i requires 0 <= i < |queue| => Release(queue[i], fate, entry))
  }

  lemma ReleasedOneMore(before: seq<Release>, queue: seq<Job>, fate: Fate, entry: TimerId)
    requires queue != []
    ensures (before + [Release(queue[0], fate, entry)]) + Released(queue[1..], fate, entry) == before + Released(queue, fate, entry)
  {
  }

  lemma {:induction false} ForwardAllIsOk(cfg: Config, r: Router, queue: seq<Job>, ip: Addr, entry: TimerId, zone: ZoneName, out: Port, mac: Mac, now: Time, late: Time)
    requires ConfigOk(cfg) && OutboxOk(cfg, r.log, now, r.outbox, late) && zone in cfg.gateways
    requires forall k :: 0 <= k < |queue| ==> Forwardable(cfg, r.log, queue[k], zone, out, now, late)
    ensures var r' := ForwardAll(cfg, r, queue, ip, entry, zone, out, mac);
            && r' == r.(outbox := r'.outbox, released := r'.released) && OutboxOk(cfg, r.log, now, r'.outbox, late)
            && History(r'.released, ip) == History(r.released, ip) + Released(queue, Forwarded, entry)
            && (forall other :: other != ip ==> History(r'.released, other) == History(r.released, other))
    decreases queue
  {
    if queue != [] {
      ForwardIsOk(cfg, r, queue[0], zone, out, mac, now, late);
      var sent := ForwardIp(cfg, r, queue[0], zone, out, mac);
      var next := sent.(released := sent.released[ip := History(sent.released, ip) + [Release(queue[0], Forwarded, entry)]]);
      ForwardAllIsOk(cfg, next, queue[1..], ip, entry, zone, out, mac, now, late);
      ReleasedOneMore(History(r.released, ip), queue, Forwarded, entry);
    }
  }

  lemma {:induction false} GiveUpIsOk(cfg: Config, r: Router, queue: seq<Job>, ip: Addr, entry: TimerId, now: Time, late: Time)
    requires ConfigOk(cfg) && OutboxOk(cfg, r.log, now, r.outbox, late)
    requires forall k :: 0 <= k < |queue| ==> FromItsZone(cfg, queue[k])
    ensures var r' := GiveUp(cfg, r, queue, ip, entry);
            && r' == r.(outbox := r'.outbox, released := r'.released) && OutboxOk(cfg, r.log, now, r'.outbox, late)
            && History(r'.released, ip) == History(r.released, ip) + Released(queue, Unreachable, entry)
            && (forall other :: other != ip ==> History(r'.released, other) == History(r.released, other))
    decreases queue
  {
    if queue != [] {
      IcmpErrorIsOk(cfg, r, queue[0], ICMP_DEST_UNREACH, ICMP_CODE_HOST_UNREACH, now, late);
      var sent := SendIcmpError(cfg, r, queue[0], ICMP_DEST_UNREACH, ICMP_CODE_HOST_UNREACH);
      var next := sent.(released := sent.released[ip := History(sent.released, ip) + [Release(queue[0], Unreachable, entry)]]);
      GiveUpIsOk(cfg, next, queue[1..], ip, entry, now, late);
      ReleasedOneMore(History(r.released, ip), queue, Unreachable, entry);
    }
  }

  /** Removing an entry with its timer leaves the other entries and timers in order. */
  lemma EntryRemoved(cfg: Config, r: Router, ip: Addr, now: Time, late: Time)
    requires PendingOk(cfg, r.log, r.pending, r.timers, r.nextTimer, now, late) && ip in r.pending
    ensures PendingOk(cfg, r.log, r.pending - {ip}, r.timers - {r.pending[ip].timer}, r.nextTimer, now, late)
  {
  }

  /** Releasing a whole queue conserves packets. */
  lemma QueueReleased(r: Router, r': Router, ip: Addr, fate: Fate)
    requires Conserved(r) && ip in r.pending
    requires r'.queued == r.queued && r'.pending == r.pending - {ip}
    requires History(r'.released, ip) == History(r.released, ip) + Released(r.pending[ip].queue, fate, r.pending[ip].timer)
    requires forall other :: other != ip ==> History(r'.released, other) == History(r.released, other)
    ensures Conserved(r')
  {
    var queue, id := r.pending[ip].queue, r.pending[ip].timer;
    assert JobsOf(History(r.released, ip) + Released(queue, fate, id)) == JobsOf(History(r.released, ip)) + queue;
    forall other ensures History(r'.queued, other) == JobsOf(History(r'.released, other)) + QueueOf(r'.pending, other) {
      assert History(r.queued, other) == JobsOf(History(r.released, other)) + QueueOf(r.pending, other);
    }
  }

  lemma RoundsAfterRelease(r: Router, r': Router, ip: Addr, fate: Fate)
    requires RoundsOk(r) && ip in r.pending
    requires r'.rounds == r.rounds && r'.nextTimer == r.nextTimer && r'.pending == r.pending - {ip}
    requires History(r'.released, ip) == History(r.released, ip) + Released(r.pending[ip].queue, fate, r.pending[ip].timer)
    requires forall other :: other != ip ==> History(r'.released, other) == History(r.released, other)
    requires fate.Unreachable? ==> r.pending[ip].retries == ARP_MAX_RETRIES
    ensures RoundsOk(r')
  {
  }

  lemma {:induction false} BudgetBound(k: nat, late: Time)
    requires late >= 0.0 && k <= ARP_MAX_RETRIES
    ensures Budget(k, late) <= LongestWait(late)
  {
    assert Budget(0, late) == 0.0;
    assert Budget(1, late) == 1.0 + late;
    assert Budget(2, late) == 2.0 + late + late;
    assert Budget(3, late) == 3.0 + late + late + late;
  }

  /** No packet waits in a queue longer than three probe rounds can take. */
  lemma QueuedPacketsAreRecent(cfg: Config, r: Router, ip: Addr, now: Time, late: Time)
    requires PendingOk(cfg, r.log, r.pending, r.timers, r.nextTimer, now, late) && ip in r.pending
    requires 0.0 <= late
    ensures now - r.timers[r.pending[ip].timer].started <= LongestWait(late)
  {
    var entry := r.pending[ip];
    assert EntryOk(cfg, r.log, ip, entry, r.timers, now, late);
    assert TimerOk(r.pending, entry.timer, r.timers[entry.timer], r.nextTimer, now, late);
    BudgetBound(entry.retries, late);
  }

  lemma ResolveKeepsOk(cfg: Config, r: Router, ip: Addr, mac: Mac, now: Time, late: Time)
    requires ConfigOk(cfg) && RouterOk(cfg, r, now, late) && OutboxOk(cfg, r.log, now, r.outbox, late) && 0.0 <= late
    requires ip in r.ipToLoc
    requires forall ip :: ip in r.pending ==> r.pending[ip].zone in cfg.gateways
    ensures var r' := ResolvePending(cfg, r, ip, mac);
            RouterOk(cfg, r', now, late) && r'.log == r.log && OutboxOk(cfg, r.log, now, r'.outbox, late)
  {
    if ip in r.pending {
      var entry, out := r.pending[ip], r.ipToLoc[ip].corePort;
      assert EntryOk(cfg, r.log, ip, entry, r.timers, now, late);
      QueuedPacketsAreRecent(cfg, r, ip, now, late);
      forall k | 0 <= k < |entry.queue|
        ensures Forwardable(cfg, r.log, entry.queue[k], entry.zone, out, now, late)
      {
        assert JobOk(cfg, r.log, entry.queue[k], ip, r.timers[entry.timer].started);
      }
      EntryRemoved(cfg, r, ip, now, late);
      var removed := r.(timers := r.timers - {entry.timer}, pending := r.pending - {ip});
      ForwardAllIsOk(cfg, removed, entry.queue, ip, entry.timer, entry.zone, out, mac, now, late);
      var r' := ResolvePending(cfg, r, ip, mac);
      QueueReleased(r, r', ip, Forwarded);
      RoundsAfterRelease(r, r', ip, Forwarded);
    }
  }

  // --- Timer ticks -----------------------------------------------------------------------------

  lemma TickKeepsPending(cfg: Config, r: Router, id: TimerId, now: Time, late: Time)
    requires PendingOk(cfg, r.log, r.pending, r.timers, r.nextTimer, now, late) && id in r.timers
    requires late >= 0.0 && r.pending[r.timers[id].ip].retries < ARP_MAX_RETRIES
    ensures var ip := r.timers[id].ip;
            var entry := r.pending[ip];
            PendingOk(cfg, r.log, r.pending[ip := entry.(retries := entry.retries + 1)],
                      r.timers[id := r.timers[id].(due := now + ARP_RETRY_INTERVAL)], r.nextTimer, now, late)
  {
  }

  lemma TickKeepsRounds(cfg: Config, r: Router, r': Router, id: TimerId, now: Time, late: Time)
    requires RoundsOk(r) && PendingOk(cfg, r.log, r.pending, r.timers, r.nextTimer, now, late) && id in r.timers
    requires r.pending[r.timers[id].ip].retries < ARP_MAX_RETRIES
    requires r'.rounds == r.rounds + multiset{id} && r'.nextTimer == r.nextTimer && r'.released == r.released
    requires var ip := r.timers[id].ip; r'.pending == r.pending[ip := r.pending[ip].(retries := r.pending[ip].retries + 1)]
    ensures RoundsOk(r')
  {
  }

  /** The tick that gives up. */
  lemma LastTickKeepsOk(cfg: Config, r: Router, r': Router, id: TimerId, now: Time, late: Time)
    requires ConfigOk(cfg) && RouterOk(cfg, r, now, late) && OutboxOk(cfg, r.log, now, r.outbox, late) && id in r.timers
    requires forall ip :: ip in r.pending ==> r.pending[ip].zone in cfg.gateways
    requires r.timers[id].ip in r.pending && r.pending[r.timers[id].ip].retries == ARP_MAX_RETRIES
    requires r' == RetryArp(cfg, r, id, now)
    ensures RouterOk(cfg, r', now, late) && r'.log == r.log && OutboxOk(cfg, r.log, now, r'.outbox, late)
  {
    var ip := r.timers[id].ip;
    var entry := r.pending[ip];
    assert EntryOk(cfg, r.log, ip, entry, r.timers, now, late);
    EntryRemoved(cfg, r, ip, now, late);
    forall k | 0 <= k < |entry.queue| ensures FromItsZone(cfg, entry.queue[k]) {
      assert JobOk(cfg, r.log, entry.queue[k], ip, r.timers[entry.timer].started);
    }
    GiveUpIsOk(cfg, r.(timers := r.timers - {entry.timer}, pending := r.pending - {ip}), entry.queue, ip, entry.timer, now, late);
    QueueReleased(r, r', ip, Unreachable);
    RoundsAfterRelease(r, r', ip, Unreachable);
  }

  /** The fields a probing tick changes. */
  lemma ProbingTickChanges(cfg: Config, r: Router, r': Router, id: TimerId, now: Time, late: Time)
    requires ConfigOk(cfg) && OutboxOk(cfg, r.log, now, r.outbox, late) && id in r.timers
    requires forall ip :: ip in r.pending ==> r.pending[ip].zone in cfg.gateways
    requires r.timers[id].ip in r.pending && r.pending[r.timers[id].ip].retries < ARP_MAX_RETRIES
    requires r' == RetryArp(cfg, r, id, now)
    ensures var ip := r.timers[id].ip;
            var entry := r.pending[ip];
            && r' == r.(outbox := r'.outbox, rounds := r.rounds + multiset{entry.timer},
                        pending := r.pending[ip := entry.(retries := entry.retries + 1)],
                        timers := r.timers[id := r.timers[id].(due := now + ARP_RETRY_INTERVAL)])
            && OutboxOk(cfg, r.log, now, r'.outbox, late)
  {
    var ip := r.timers[id].ip;
    var again := r.(timers := r.timers[id := r.timers[id].(due := now + ARP_RETRY_INTERVAL)]);
    ProbeIsOk(cfg, again, ip, r.pending[ip].zone, r.pending[ip].timer, now, late);
  }

  /** A tick that probes again. */
  lemma ProbingTickKeepsOk(cfg: Config, r: Router, r': Router, id: TimerId, now: Time, late: Time)
    requires RouterOk(cfg, r, now, late) && late >= 0.0 && id in r.timers
    requires r.timers[id].ip in r.pending && r.pending[r.timers[id].ip].retries < ARP_MAX_RETRIES
    requires r.pending[r.timers[id].ip].timer == id
    requires var ip := r.timers[id].ip;
             r' == r.(outbox := r'.outbox, rounds := r.rounds + multiset{id},
                      pending := r.pending[ip := r.pending[ip].(retries := r.pending[ip].retries + 1)],
                      timers := r.timers[id := r.timers[id].(due := now + ARP_RETRY_INTERVAL)])
    ensures RouterOk(cfg, r', now, late)
  {
    TickKeepsPending(cfg, r, id, now, late);
    TickKeepsRounds(cfg, r, r', id, now, late);
  }

  /** A tick of an entry's retry timer. */
  lemma TickKeepsOk(cfg: Config, r: Router, r': Router, id: TimerId, now: Time, late: Time)
    requires ConfigOk(cfg) && RouterOk(cfg, r, now, late) && OutboxOk(cfg, r.log, now, r.outbox, late) && late >= 0.0 && id in r.timers
    requires forall ip :: ip in r.pending ==> r.pending[ip].zone in cfg.gateways
    requires r' == RetryArp(cfg, r, id, now)
    ensures RouterOk(cfg, r', now, late) && r'.log == r.log && OutboxOk(cfg, r.log, now, r'.outbox, late)
  {
    var ip := r.timers[id].ip;
    assert TimerOk(r.pending, id, r.timers[id], r.nextTimer, now, late);
    assert EntryOk(cfg, r.log, ip, r.pending[ip], r.timers, now, late);
    if r.pending[ip].retries < ARP_MAX_RETRIES {
      ProbingTickChanges(cfg, r, r', id, now, late);
      ProbingTickKeepsOk(cfg, r, r', id, now, late);
    } else {
      LastTickKeepsOk(cfg, r, r', id, now, late);
    }
  }

  // --- Queueing --------------------------------------------------------------------------------

  lemma PendingAfterAppend(cfg: Config, r: Router, job: Job, u: Time, late: Time)
    requires PendingOk(cfg, r.log, r.pending, r.timers, r.nextTimer, u, late)
    requires job.ip.dst in r.pending && FromItsZone(cfg, job)
    requires exists o :: o in r.log && Passes(o) && o.ip == job.ip && o.u == u
    ensures var ip := job.ip.dst;
            PendingOk(cfg, r.log, r.pending[ip := r.pending[ip].(queue := r.pending[ip].queue + [job])], r.timers, r.nextTimer, u, late)
  {
  }

  lemma PendingAfterOpen(cfg: Config, r: Router, job: Job, zone: ZoneName, u: Time, late: Time)
    requires PendingOk(cfg, r.log, r.pending, r.timers, r.nextTimer, u, late) && late >= 0.0
    requires job.ip.dst !in r.pending && FromItsZone(cfg, job) && cfg.zoneOf(job.ip.dst) == Some(zone)
    requires exists o :: o in r.log && Passes(o) && o.ip == job.ip && o.u == u
    ensures var ip, id := job.ip.dst, r.nextTimer;
            PendingOk(cfg, r.log, r.pending[ip := Entry(zone, [job], 1, id)],
                      r.timers[id := Timer(ip, u + ARP_RETRY_INTERVAL, u)], id + 1, u, late)
  {
    var ip, id := job.ip.dst, r.nextTimer;
    var pending, timers := r.pending[ip := Entry(zone, [job], 1, id)], r.timers[id := Timer(ip, u + ARP_RETRY_INTERVAL, u)];
    assert Budget(0, late) == 0.0;
    assert Budget(1, late) == ARP_RETRY_INTERVAL + late;
    forall other | other in pending
      ensures EntryOk(cfg, r.log, other, pending[other], timers, u, late)
    {
      if other == ip {
        assert JobOk(cfg, r.log, job, ip, u);
      } else {
        assert EntryOk(cfg, r.log, other, r.pending[other], r.timers, u, late);
        assert TimerOk(r.pending, r.pending[other].timer, r.timers[r.pending[other].timer], r.nextTimer, u, late);
      }
    }
    forall other | other in timers ensures TimerOk(pending, other, timers[other], id + 1, u, late) {
      if other != id {
        assert TimerOk(r.pending, other, r.timers[other], r.nextTimer, u, late);
      }
    }
  }

  /** The fields QueueAndResolve changes. */
  lemma QueueChanges(cfg: Config, r: Router, job: Job, zone: ZoneName, u: Time, late: Time)
    requires zone in cfg.gateways && OutboxOk(cfg, r.log, u, r.outbox, late)
    ensures var ip, id, r' := job.ip.dst, r.nextTimer, QueueAndResolve(cfg, r, job, zone, u);
            && r' == r.(outbox := r'.outbox, rounds := r'.rounds, pending := r'.pending, timers := r'.timers,
                        nextTimer := r'.nextTimer, queued := r.queued[ip := History(r.queued, ip) + [job]])
            && OutboxOk(cfg, r.log, u, r'.outbox, late)
            && (ip in r.pending ==>
                  r'.rounds == r.rounds && r'.timers == r.timers && r'.nextTimer == id
                  && r'.pending == r.pending[ip := r.pending[ip].(queue := r.pending[ip].queue + [job])])
            && (ip !in r.pending ==>
                  r'.rounds == r.rounds + multiset{id} && r'.nextTimer == id + 1
                  && r'.timers == r.timers[id := Timer(ip, u + ARP_RETRY_INTERVAL, u)]
                  && r'.pending == r.pending[ip := Entry(zone, [job], 1, id)])
  {
    if job.ip.dst !in r.pending {
      ProbeIsOk(cfg, r, job.ip.dst, zone, r.nextTimer, u, late);
      assert OpenEntry(cfg, r, job.ip.dst, zone, u).pending[job.ip.dst].queue + [job] == [job];
    }
  }

  lemma QueueKeepsConserved(r: Router, r': Router, job: Job)
    requires Conserved(r) && r'.released == r.released
    requires r'.queued == r.queued[job.ip.dst := History(r.queued, job.ip.dst) + [job]]
    requires forall ip :: QueueOf(r'.pending, ip) == QueueOf(r.pending, ip) + if ip == job.ip.dst then [job] else []
    ensures Conserved(r')
  {
  }

  lemma OpeningKeepsRounds(cfg: Config, r: Router, r': Router, ip: Addr, entry: Entry, u: Time, late: Time)
    requires PendingOk(cfg, r.log, r.pending, r.timers, r.nextTimer, u, late) && RoundsOk(r)
    requires entry.timer == r.nextTimer && entry.retries == 1 && r'.pending == r.pending[ip := entry]
    requires r'.rounds == r.rounds + multiset{r.nextTimer} && r'.nextTimer == r.nextTimer + 1 && r'.released == r.released
    ensures RoundsOk(r')
  {
  }

  lemma AppendingKeepsOk(cfg: Config, r: Router, r': Router, job: Job, u: Time, late: Time)
    requires RouterOk(cfg, r, u, late) && job.ip.dst in r.pending && FromItsZone(cfg, job)
    requires exists o :: o in r.log && Passes(o) && o.ip == job.ip && o.u == u
    requires var ip := job.ip.dst;
             r' == r.(outbox := r'.outbox, queued := r.queued[ip := History(r.queued, ip) + [job]],
                      pending := r.pending[ip := r.pending[ip].(queue := r.pending[ip].queue + [job])])
    ensures RouterOk(cfg, r', u, late)
  {
    PendingAfterAppend(cfg, r, job, u, late);
    AppendingKeepsRounds(r, r', job);
    AppendingKeepsConserved(r, r', job);
  }

  lemma AppendingKeepsRounds(r: Router, r': Router, job: Job)
    requires RoundsOk(r) && job.ip.dst in r.pending && r'.rounds == r.rounds && r'.nextTimer == r.nextTimer && r'.released == r.released
    requires var ip := job.ip.dst; r'.pending == r.pending[ip := r.pending[ip].(queue := r.pending[ip].queue + [job])]
    ensures RoundsOk(r')
  {
  }

  lemma AppendingKeepsConserved(r: Router, r': Router, job: Job)
    requires Conserved(r) && job.ip.dst in r.pending && r'.released == r.released
    requires r'.queued == r.queued[job.ip.dst := History(r.queued, job.ip.dst) + [job]]
    requires var ip := job.ip.dst; r'.pending == r.pending[ip := r.pending[ip].(queue := r.pending[ip].queue + [job])]
    ensures Conserved(r')
  {
    forall ip ensures QueueOf(r'.pending, ip) == QueueOf(r.pending, ip) + if ip == job.ip.dst then [job] else [] {}
    QueueKeepsConserved(r, r', job);
  }

  lemma OpeningKeepsConserved(r: Router, r': Router, job: Job, entry: Entry)
    requires Conserved(r) && job.ip.dst !in r.pending && r'.released == r.released && entry.queue == [job]
    requires r'.queued == r.queued[job.ip.dst := History(r.queued, job.ip.dst) + [job]] && r'.pending == r.pending[job.ip.dst := entry]
    ensures Conserved(r')
  {
    forall ip ensures QueueOf(r'.pending, ip) == QueueOf(r.pending, ip) + if ip == job.ip.dst then [job] else [] {}
    QueueKeepsConserved(r, r', job);
  }

  lemma OpeningKeepsOk(cfg: Config, r: Router, r': Router, job: Job, zone: ZoneName, u: Time, late: Time)
    requires RouterOk(cfg, r, u, late) && late >= 0.0
    requires job.ip.dst !in r.pending && FromItsZone(cfg, job) && cfg.zoneOf(job.ip.dst) == Some(zone)
    requires exists o :: o in r.log && Passes(o) && o.ip == job.ip && o.u == u
    requires var ip, id := job.ip.dst, r.nextTimer;
             r' == r.(outbox := r'.outbox, queued := r.queued[ip := History(r.queued, ip) + [job]],
                      rounds := r.rounds + multiset{id}, pending := r.pending[ip := Entry(zone, [job], 1, id)],
                      timers := r.timers[id := Timer(ip, u + ARP_RETRY_INTERVAL, u)], nextTimer := id + 1)
    ensures RouterOk(cfg, r', u, late)
  {
    PendingAfterOpen(cfg, r, job, zone, u, late);
    OpeningKeepsRounds(cfg, r, r', job.ip.dst, Entry(zone, [job], 1, r.nextTimer), u, late);
    OpeningKeepsConserved(r, r', job, Entry(zone, [job], 1, r.nextTimer));
  }

  lemma QueueKeepsOk(cfg: Config, r: Router, r': Router, job: Job, zone: ZoneName, u: Time, late: Time)
    requires RouterOk(cfg, r, u, late) && OutboxOk(cfg, r.log, u, r.outbox, late) && late >= 0.0 && zone in cfg.gateways
    requires FromItsZone(cfg, job) && cfg.zoneOf(job.ip.dst) == Some(zone)
    requires exists o :: o in r.log && Passes(o) && o.ip == job.ip && o.u == u
    requires r' == QueueAndResolve(cfg, r, job, zone, u)
    ensures RouterOk(cfg, r', u, late) && r'.log == r.log && OutboxOk(cfg, r.log, u, r'.outbox, late)
  {
    QueueChanges(cfg, r, job, zone, u, late);
    if job.ip.dst in r.pending {
      AppendingKeepsOk(cfg, r, r', job, u, late);
    } else {
      OpeningKeepsOk(cfg, r, r', job, zone, u, late);
    }
  }
}
