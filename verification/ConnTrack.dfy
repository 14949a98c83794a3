/** conntrack.py: the table of connections the policy allowed to start, with idle expiry. */
module ConnTrack {
  import opened Common
  import opened Ipv4

  type Time = real

  const IPPROTO_ICMP := 1
  const IPPROTO_TCP := 6
  const IPPROTO_UDP := 17
  const ICMP_ECHO_REPLY := 0
  const ICMP_ECHO_REQUEST := 8
  const IDLE_TIMEOUT: Time := 120.0

  /** The type of the echo packets that can open a connection, or answer one. */
  function EchoType(opens: bool): nat {
    if opens then ICMP_ECHO_REQUEST else ICMP_ECHO_REPLY
  }

  /** One direction of a connection. */
  datatype Flow = Flow(src: Addr, dst: Addr, proto: nat, sport: nat, dport: nat) {
    function Reversed(): Flow {
      Flow(dst, src, proto, dport, sport)
    }
  }

  datatype TrackedPacket = TrackedPacket(flow: Flow, mayOpen: bool, mayReply: bool)

  /** The packet's description for tracking; None for kinds that are not tracked. */
  function Tracked(src: Addr, dst: Addr, proto: nat, sport: nat, dport: nat, icmpType: nat, icmpId: nat): (p: Option<TrackedPacket>)
    ensures p.Some? <==> proto == IPPROTO_TCP || proto == IPPROTO_UDP
                         || (proto == IPPROTO_ICMP && (icmpType == ICMP_ECHO_REQUEST || icmpType == ICMP_ECHO_REPLY))
    ensures p.Some? ==> p.value.flow.src == src && p.value.flow.dst == dst && p.value.flow.proto == proto
    ensures p.Some? ==> (p.value.mayOpen <==> proto != IPPROTO_ICMP || icmpType == ICMP_ECHO_REQUEST)
    ensures p.Some? ==> (p.value.mayReply <==> proto != IPPROTO_ICMP || icmpType == ICMP_ECHO_REPLY)
    ensures p.Some? ==> (p.value.flow.sport, p.value.flow.dport) == if proto == IPPROTO_ICMP then (icmpId, icmpId) else (sport, dport)
  {
    if proto == IPPROTO_TCP || proto == IPPROTO_UDP then
      Some(TrackedPacket(Flow(src, dst, proto, sport, dport), true, true))
    else if proto == IPPROTO_ICMP && icmpType == ICMP_ECHO_REQUEST then
      Some(TrackedPacket(Flow(src, dst, proto, icmpId, icmpId), true, false))
    else if proto == IPPROTO_ICMP && icmpType == ICMP_ECHO_REPLY then
      Some(TrackedPacket(Flow(src, dst, proto, icmpId, icmpId), false, true))
    else None
  }

  // --- The table as a value --------------------------------------------------------------------

  /** Opening direction of each connection, to the time it was last seen. */
  type Table = map<Flow, Time>

  datatype Verdict = New | Reply | Drop

  predicate Alive(table: Table, idle: Time, flow: Flow, now: Time) {
    flow in table && now - table[flow] < idle
  }

  predicate Opens(allowed: bool, packet: Option<TrackedPacket>, flow: Flow) {
    allowed && packet.Some? && packet.value.mayOpen && packet.value.flow == flow
  }

  predicate Answers(allowed: bool, packet: Option<TrackedPacket>, flow: Flow) {
    !allowed && packet.Some? && packet.value.mayReply && packet.value.flow.Reversed() == flow
  }

  /** One check: `t` is its first clock reading, `u` the second one, taken to refresh the entry. */
  function VerdictOf(table: Table, idle: Time, allowed: bool, packet: Option<TrackedPacket>, t: Time): Verdict {
    if allowed then New
    else if packet.Some? && packet.value.mayReply && Alive(table, idle, packet.value.flow.Reversed(), t) then Reply
    else Drop
  }

  function AfterCheck(table: Table, idle: Time, allowed: bool, packet: Option<TrackedPacket>, t: Time, u: Time): Table {
    match VerdictOf(table, idle, allowed, packet, t)
    case New => if packet.Some? && packet.value.mayOpen then table[packet.value.flow := t] else table
    case Reply => table[packet.value.flow.Reversed() := u]
    case Drop => table
  }

  /** One sweep; each entry is judged at its own clock reading. */
  function AfterSweep(table: Table, idle: Time, readings: map<Flow, Time>): Table {
    map f | f in table && (f in readings ==> Alive(table, idle, f, readings[f])) :: table[f]
  }

  // --- The table as an object ------------------------------------------------------------------

  /** `time.monotonic`: every reading is at least as late as the one before it. */
  class Clock {
    var now: Time

    constructor (start: Time)
      ensures now == start
    {
      now := start;
    }

    method Read() returns (t: Time)
      modifies this
      ensures old(now) <= t == now
    {
      var passed: Time :| passed >= 0.0;
      now := now + passed;
      t := now;
    }
  }

  class ConnectionTable {
    const idleTimeout: Time
    const clock: Clock
    var lastSeen: Table

    constructor (idleTimeout: Time, clock: Clock)
      ensures this.idleTimeout == idleTimeout && this.clock == clock && lastSeen == map[]
    {
      this.idleTimeout, this.clock, lastSeen := idleTimeout, clock, map[];
    }

    /** `_alive`: the clock is read only for a flow that has an entry. */
    method IsAlive(flow: Flow) returns (alive: bool)
      modifies clock
      ensures old(clock.now) <= clock.now
      ensures alive == Alive(lastSeen, idleTimeout, flow, clock.now)
    {
      if flow !in lastSeen {
        return false;
      }
      var t := clock.Read();
      return t - lastSeen[flow] < idleTimeout;
    }

    method Track(flow: Flow)
      modifies this, clock
      ensures old(clock.now) <= clock.now
      ensures lastSeen == old(lastSeen)[flow := clock.now]
    {
      var t := clock.Read();
      lastSeen := lastSeen[flow := t];
    }

    method IsReply(flow: Flow) returns (hit: bool, ghost t: Time)
      modifies this, clock
      ensures old(clock.now) <= t <= clock.now
      ensures hit == Alive(old(lastSeen), idleTimeout, flow.Reversed(), t)
      ensures lastSeen == if hit then old(lastSeen)[flow.Reversed() := clock.now] else old(lastSeen)
    {
      var opening := flow.Reversed();
      hit := IsAlive(opening);
      t := clock.now;
      if hit {
        var u := clock.Read();
        lastSeen := lastSeen[opening := u];
      }
    }

    /** The flows whose entry was idle when the clock was read for it. */
    method FindStale() returns (stale: set<Flow>, ghost readings: map<Flow, Time>)
      modifies clock
      ensures old(clock.now) <= clock.now && readings.Keys == lastSeen.Keys
      ensures forall f :: f in readings ==> old(clock.now) <= readings[f] <= clock.now
      ensures forall f :: f in stale <==> f in readings && !Alive(lastSeen, idleTimeout, f, readings[f])
    {
      var judged: set<Flow> := {};
      stale, readings := {}, map[];
      while lastSeen.Keys - judged != {}
        invariant readings.Keys == judged <= lastSeen.Keys && old(clock.now) <= clock.now
        invariant forall f :: f in readings ==> old(clock.now) <= readings[f] <= clock.now
        invariant forall f :: f in stale <==> f in readings && !Alive(lastSeen, idleTimeout, f, readings[f])
        decreases lastSeen.Keys - judged
      {
        var f :| f in lastSeen.Keys - judged;
        var alive := IsAlive(f);
        if !alive {
          stale := stale + {f};
        }
        readings, judged := readings[f := clock.now], judged + {f};
      }
      assert judged == lastSeen.Keys;
    }

    /** The sweep removes exactly the entries that were idle when the clock was read for them, and
        reports how many. */
    method Expire() returns (removed: nat, ghost readings: map<Flow, Time>)
      modifies this, clock
      ensures old(clock.now) <= clock.now && readings.Keys == old(lastSeen).Keys
      ensures forall f :: f in readings ==> old(clock.now) <= readings[f] <= clock.now
      ensures lastSeen == AfterSweep(old(lastSeen), idleTimeout, readings)
      ensures removed == |old(lastSeen)| - |lastSeen|
    {
      var stale;
      stale, readings := FindStale();
      assert stale <= lastSeen.Keys;
      assert (lastSeen - stale).Keys == lastSeen.Keys - stale;
      removed := |stale|;
      lastSeen := lastSeen - stale;
    }

    method Check(allowed: bool, packet: Option<TrackedPacket>) returns (verdict: Verdict, ghost t: Time)
      modifies this, clock
      ensures old(clock.now) <= t <= clock.now
      ensures verdict == VerdictOf(old(lastSeen), idleTimeout, allowed, packet, t)
      ensures lastSeen == AfterCheck(old(lastSeen), idleTimeout, allowed, packet, t, clock.now)
    {
      t := clock.now;
      if allowed {
        if packet.Some? && packet.value.mayOpen {
          Track(packet.value.flow);
          t := clock.now;
        }
        return New, t;
      }
      if packet.Some? && packet.value.mayReply {
        var hit;
        hit, t := IsReply(packet.value.flow);
        if hit {
          return Reply, t;
        }
      }
      return Drop, t;
    }
  }
}
