/** What becomes of waiting packets on the wire: when a queue is drained, each packet turns into
    exactly its own message, in the order the packets came, with its TTL lowered once or not at all. */
module Queues {
  import opened Common
  import opened Ipv4
  import opened Policy
  import opened OpenFlow
  import opened ConnTrack
  import opened RouterModel
  import opened DataPlane

  /** A drained packet turns into a message if the switch concerned is connected: the core for a packet
      that is routed, else the switch of its sender. `found` is where the host was found; None means
      it was not. */
  ghost predicate Answered(cfg: Config, connections: set<Dpid>, job: Job, found: Option<(Port, Mac)>) {
    if found.Some? && job.ip.ttl > 1 then cfg.maps.coreDpid in connections
    else job.dpid in connections && ZoneOfPort(cfg, job.dpid, job.port).Some?
  }

  /** The message it turns into: the packet, one hop on, or an ICMP error: time exceeded (type 11, code 0)
      if the host was found, host unreachable (type 3, code 1) if not. */
  ghost predicate Becomes(cfg: Config, job: Job, zone: ZoneName, found: Option<(Port, Mac)>, m: Msg) {
    if found.Some? && job.ip.ttl > 1 then
      && zone in cfg.gateways
      && m == PacketOut(cfg.maps.coreDpid, Frame(cfg.gateways[zone].mac, found.value.1, Ip(job.ip.(ttl := job.ip.ttl - 1))), To(found.value.0))
    else if found.Some? then IsErrorFor(cfg, job, 11, 0, m)
    else IsErrorFor(cfg, job, 3, 1, m)
  }

  /** An ICMP error from the sender's gateway, address and MAC, back to the sender out of the sender's port,
      with a fresh TTL of 64, quoting the packet as it came. */
  ghost predicate IsErrorFor(cfg: Config, job: Job, icmpType: nat, code: nat, m: Msg) {
    var zone := ZoneOfPort(cfg, job.dpid, job.port);
    && zone.Some? && zone.value in cfg.gateways
    && var gw := cfg.gateways[zone.value];
       m == PacketOut(job.dpid, Frame(gw.mac, job.mac, Ip(IpPacket(gw.ip, job.ip.src, 1, 64, icmpType, code, true, 0, Quote(job.ip)))), To(job.port))
  }

  /** The messages are those of the packets, one packet after the other. */
  ghost predicate BecomeInOrder(cfg: Config, connections: set<Dpid>, queue: seq<Job>, zone: ZoneName, found: Option<(Port, Mac)>, msgs: seq<Msg>)
    decreases queue
  {
    if queue == [] then msgs == []
    else if !Answered(cfg, connections, queue[0], found) then BecomeInOrder(cfg, connections, queue[1..], zone, found, msgs)
    else msgs != [] && Becomes(cfg, queue[0], zone, found, msgs[0]) && BecomeInOrder(cfg, connections, queue[1..], zone, found, msgs[1..])
  }

  /** The messages of one packet. */
  ghost predicate OneBecomes(cfg: Config, connections: set<Dpid>, job: Job, zone: ZoneName, found: Option<(Port, Mac)>, msgs: seq<Msg>) {
    if Answered(cfg, connections, job, found) then |msgs| == 1 && Becomes(cfg, job, zone, found, msgs[0]) else msgs == []
  }

  /** One packet drained, then the rest. */
  lemma InOrderStep(cfg: Config, connections: set<Dpid>, queue: seq<Job>, zone: ZoneName, found: Option<(Port, Mac)>, first: seq<Msg>, rest: seq<Msg>)
    requires queue != [] && OneBecomes(cfg, connections, queue[0], zone, found, first)
    requires BecomeInOrder(cfg, connections, queue[1..], zone, found, rest)
    ensures BecomeInOrder(cfg, connections, queue, zone, found, first + rest)
  {
    if Answered(cfg, connections, queue[0], found) {
      assert (first + rest)[1..] == rest;
    } else {
      assert first + rest == rest;
    }
  }

  lemma SentTwice(before: seq<Msg>, first: seq<Msg>, rest: seq<Msg>)
    ensures before + first + rest == before + (first + rest)
  {
  }

  lemma ErrorIsSent(cfg: Config, r: Router, job: Job, icmpType: nat, code: nat) returns (msgs: seq<Msg>)
    requires ConfigOk(cfg)
    ensures SendIcmpError(cfg, r, job, icmpType, code) == Send(r, msgs)
    ensures if job.dpid in r.connections && ZoneOfPort(cfg, job.dpid, job.port).Some? then |msgs| == 1 && IsErrorFor(cfg, job, icmpType, code, msgs[0])
            else msgs == []
  {
    if job.dpid in r.connections && ZoneOfPort(cfg, job.dpid, job.port).Some? {
      var gw := cfg.gateways[ZoneOfPort(cfg, job.dpid, job.port).value];
      msgs := [PacketOut(job.dpid, IcmpErrorFrame(gw, job, icmpType, code), To(job.port))];
    } else {
      msgs := [];
      assert r.outbox + [] == r.outbox;
    }
  }

  lemma ForwardSendsIt(cfg: Config, r: Router, job: Job, zone: ZoneName, out: Port, mac: Mac) returns (msgs: seq<Msg>)
    requires ConfigOk(cfg) && zone in cfg.gateways
    ensures ForwardIp(cfg, r, job, zone, out, mac) == Send(r, msgs)
    ensures OneBecomes(cfg, r.connections, job, zone, Some((out, mac)), msgs)
  {
    if job.ip.ttl <= 1 {
      msgs := ErrorIsSent(cfg, r, job, ICMP_TIME_EXCEEDED, ICMP_CODE_TTL_EXCEEDED);
    } else if cfg.maps.coreDpid !in r.connections {
      msgs := [];
      assert r.outbox + [] == r.outbox;
    } else {
      msgs := [PacketOut(cfg.maps.coreDpid, Frame(cfg.gateways[zone].mac, mac, Ip(job.ip.(ttl := job.ip.ttl - 1))), To(out))];
    }
  }

  lemma {:induction false} ForwardAllInOrder(cfg: Config, r: Router, queue: seq<Job>, ip: Addr, entry: TimerId, zone: ZoneName, out: Port, mac: Mac)
    returns (msgs: seq<Msg>)
    requires ConfigOk(cfg) && zone in cfg.gateways
    ensures ForwardAll(cfg, r, queue, ip, entry, zone, out, mac).outbox == r.outbox + msgs
    ensures BecomeInOrder(cfg, r.connections, queue, zone, Some((out, mac)), msgs)
    decreases queue
  {
    if queue == [] {
      msgs := [];
    } else {
      var first := ForwardSendsIt(cfg, r, queue[0], zone, out, mac);
      var sent := Send(r, first);
      var next := sent.(released := sent.released[ip := History(sent.released, ip) + [Release(queue[0], Forwarded, entry)]]);
      var rest := ForwardAllInOrder(cfg, next, queue[1..], ip, entry, zone, out, mac);
      InOrderStep(cfg, r.connections, queue, zone, Some((out, mac)), first, rest);
      SentTwice(r.outbox, first, rest);
      msgs := first + rest;
    }
  }

  lemma {:induction false} GiveUpInOrder(cfg: Config, r: Router, queue: seq<Job>, ip: Addr, entry: TimerId, zone: ZoneName) returns (msgs: seq<Msg>)
    requires ConfigOk(cfg)
    ensures GiveUp(cfg, r, queue, ip, entry).outbox == r.outbox + msgs
    ensures BecomeInOrder(cfg, r.connections, queue, zone, None, msgs)
    decreases queue
  {
    if queue == [] {
      msgs := [];
    } else {
      var first := ErrorIsSent(cfg, r, queue[0], ICMP_DEST_UNREACH, ICMP_CODE_HOST_UNREACH);
      var sent := Send(r, first);
      var next := sent.(released := sent.released[ip := History(sent.released, ip) + [Release(queue[0], Unreachable, entry)]]);
      var rest := GiveUpInOrder(cfg, next, queue[1..], ip, entry, zone);
      InOrderStep(cfg, r.connections, queue, zone, None, first, rest);
      SentTwice(r.outbox, first, rest);
      msgs := first + rest;
    }
  }

  /** An ARP reply drains the whole queue in order, toward the stored location and the MAC that
      replied. */
  lemma ResolvingDrainsInOrder(cfg: Config, r: Router, ip: Addr, mac: Mac)
    requires ConfigOk(cfg) && Consistent(cfg, r) && ip in r.ipToLoc && ip in r.pending
    ensures var entry, r' := r.pending[ip], ResolvePending(cfg, r, ip, mac);
            exists msgs :: r'.outbox == r.outbox + msgs
                           && BecomeInOrder(cfg, r.connections, entry.queue, entry.zone, Some((r.ipToLoc[ip].corePort, mac)), msgs)
  {
    var entry := r.pending[ip];
    var msgs := ForwardAllInOrder(cfg, r.(timers := r.timers - {entry.timer}, pending := r.pending - {ip}),
                                  entry.queue, ip, entry.timer, entry.zone, r.ipToLoc[ip].corePort, mac);
  }

  /** The third tick answers every sender in order. */
  lemma GivingUpAnswersInOrder(cfg: Config, r: Router, id: TimerId, now: Time)
    requires ConfigOk(cfg) && Consistent(cfg, r) && id in r.timers && r.timers[id].ip in r.pending
    requires r.pending[r.timers[id].ip].retries >= ARP_MAX_RETRIES
    ensures var entry, r' := r.pending[r.timers[id].ip], RetryArp(cfg, r, id, now);
            exists msgs :: r'.outbox == r.outbox + msgs && BecomeInOrder(cfg, r.connections, entry.queue, entry.zone, None, msgs)
  {
    var ip := r.timers[id].ip;
    var entry := r.pending[ip];
    var msgs := GiveUpInOrder(cfg, r.(timers := r.timers - {entry.timer}, pending := r.pending - {ip}), entry.queue, ip, entry.timer, entry.zone);
  }
}
