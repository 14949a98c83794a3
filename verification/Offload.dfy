/** Routed connections stay off the controller: in every run, once a packet has been routed, its switches
    carry the ones that follow on their own, as long as the two rules live. */
module Offload {
  import opened Common
  import opened Ipv4
  import opened ConnTrack
  import opened OpenFlow
  import opened RouterModel
  import opened RouterEffects
  import opened DataPlane
  import opened Isolation
  import opened Floods
  import opened RunLog
  import opened Messages
  import opened KeepAlive
  import opened Routing

  // --- One packet ------------------------------------------------------------------------------

  /** As long as the rule has neither been replaced nor expired, no packet it matches comes to the
      controller, and the rule may take it. */
  lemma LiveRulesTakeWhatComes(cfg: Config, steps: seq<Step>, nets: seq<Net>, late: Time, m: Match, made: Rule, i: nat, j: nat, s: Step)
    requires InRun(cfg, steps, nets, late, j) && i < j && s.Arrive? && Matches(m, s.frame, s.port) && Enabled(cfg, nets[j], s, late)
    requires Held(steps, nets, s.dpid, m, made, i, i + 1) && UnseenBetween(cfg, steps, nets, s.dpid, m, i, j)
    requires made.idle == 30.0 && made.hard == 60.0
    requires nets[j].now - nets[i + 1].now < 60.0 && nets[j].now - LastTaken(steps, nets, s.dpid, m, i, j) < 30.0
    ensures s.via.Some? && Enabled(cfg, nets[j], s.(via := Some(m)), late)
    ensures m in TableOf(nets[j], s.dpid) && TableOf(nets[j], s.dpid)[m].actions == made.actions
  {
    MadeRulesStay(cfg, steps, nets, late, s.dpid, m, made, i, j);
    assert Hits(nets[j], s.dpid, m, s.frame, s.port);
  }

  // --- A stream of packets ---------------------------------------------------------------------

  /** Packets the rule made in step `i` matches: less than 30 seconds apart, the first less than 30 seconds
      after it was made, the last less than 60. */
  ghost predicate Stream(steps: seq<Step>, nets: seq<Net>, dpid: Dpid, m: Match, i: nat, at: seq<nat>)
    requires i < |steps| && |nets| == |steps| + 1
  {
    && (forall q :: 0 <= q < |at| ==> i < at[q] < |steps| && ComesTo(steps[at[q]], dpid, m) && nets[at[q]].now - nets[i + 1].now < 60.0)
    && (forall q :: 0 < q < |at| ==> at[q - 1] < at[q] && nets[at[q]].now - nets[at[q - 1]].now < 30.0)
    && (at != [] ==> nets[at[0]].now - nets[i + 1].now < 30.0)
  }

  predicate ComesTo(s: Step, dpid: Dpid, m: Match) {
    s.Arrive? && s.dpid == dpid && Matches(m, s.frame, s.port)
  }

  /** Between these packets the controller sees none that may replace the rule. */
  ghost predicate NoneReplaces(cfg: Config, steps: seq<Step>, nets: seq<Net>, dpid: Dpid, m: Match, i: nat, at: seq<nat>)
    requires |nets| == |steps| + 1
  {
    forall k :: i < k < |steps| && (at == [] || k < at[|at| - 1]) && k !in at ==> Unseen(cfg, nets[k], steps[k], dpid, m)
  }

  /** No other rule takes any of them. */
  ghost predicate OnlyRule(steps: seq<Step>, m: Match, at: seq<nat>) {
    forall q :: 0 <= q < |at| && at[q] < |steps| && steps[at[q]].Arrive? && steps[at[q]].via.Some? ==> steps[at[q]].via == Some(m)
  }

  lemma {:induction false} LastTakenIsLate(steps: seq<Step>, nets: seq<Net>, dpid: Dpid, m: Match, i: nat, q: nat, k: nat)
    requires i < q < k < |nets| == |steps| + 1 && TakenByRule(steps[q], dpid, m)
    requires forall l :: q <= l < k ==> nets[q].now <= nets[l].now
    ensures LastTaken(steps, nets, dpid, m, i, k) >= nets[q].now
  {
    if k > q + 1 {
      LastTakenIsLate(steps, nets, dpid, m, i, q, k - 1);
    }
  }

  lemma ClocksGrow(cfg: Config, steps: seq<Step>, nets: seq<Net>, late: Time, q: nat, k: nat)
    requires InRun(cfg, steps, nets, late, k) && q <= k
    ensures forall l :: q <= l < k ==> nets[q].now <= nets[l].now
  {
    forall l | q <= l < k ensures nets[q].now <= nets[l].now {
      LogsAndClocksGrow(cfg, steps, nets, late, q, l);
    }
  }

  lemma TakenOnesAreUnseen(cfg: Config, steps: seq<Step>, nets: seq<Net>, dpid: Dpid, m: Match, i: nat, at: seq<nat>, q: nat)
    requires i < |steps| && |nets| == |steps| + 1 && Stream(steps, nets, dpid, m, i, at) && NoneReplaces(cfg, steps, nets, dpid, m, i, at) && q < |at|
    requires forall p :: 0 <= p < q ==> steps[at[p]].via.Some?
    ensures UnseenBetween(cfg, steps, nets, dpid, m, i, at[q])
  {
    forall k | i < k < at[q] && k < |steps| ensures Unseen(cfg, nets[k], steps[k], dpid, m) {
      Increasing(at, q, |at| - 1);
      if k in at {
        var p :| 0 <= p < |at| && at[p] == k;
        if p >= q {
          Increasing(at, q, p);
        }
      }
    }
  }

  lemma {:induction false} Increasing(at: seq<nat>, p: nat, q: nat)
    requires p <= q < |at| && forall j :: 0 < j < |at| ==> at[j - 1] < at[j]
    ensures at[p] <= at[q]
  {
    if p < q {
      Increasing(at, p, q - 1);
    }
  }

  /** The packet after those that were taken is taken. */
  lemma NextIsTaken(cfg: Config, steps: seq<Step>, nets: seq<Net>, late: Time, dpid: Dpid, m: Match, made: Rule, i: nat, at: seq<nat>, q: nat)
    requires InRun(cfg, steps, nets, late, |steps|) && i < |steps| && Stream(steps, nets, dpid, m, i, at) && NoneReplaces(cfg, steps, nets, dpid, m, i, at)
    requires Held(steps, nets, dpid, m, made, i, i + 1) && made.idle == 30.0 && made.hard == 60.0 && q < |at|
    requires forall p :: 0 <= p < q ==> steps[at[p]].via == Some(m)
    ensures steps[at[q]].via.Some?
    ensures m in TableOf(nets[at[q]], dpid) && TableOf(nets[at[q]], dpid)[m].actions == made.actions
  {
    TakenOnesAreUnseen(cfg, steps, nets, dpid, m, i, at, q);
    LastTakenIsRecent(cfg, steps, nets, late, dpid, m, i, at, q);
    StepOfRun(cfg, steps, nets, late, at[q]);
    LiveRulesTakeWhatComes(cfg, steps, nets, late, m, made, i, at[q], steps[at[q]]);
  }

  lemma LastTakenIsRecent(cfg: Config, steps: seq<Step>, nets: seq<Net>, late: Time, dpid: Dpid, m: Match, i: nat, at: seq<nat>, q: nat)
    requires InRun(cfg, steps, nets, late, |steps|) && i < |steps| && Stream(steps, nets, dpid, m, i, at) && q < |at|
    requires q > 0 ==> steps[at[q - 1]].via == Some(m)
    ensures nets[at[q]].now - LastTaken(steps, nets, dpid, m, i, at[q]) < 30.0
  {
    if q > 0 {
      ClocksGrow(cfg, steps, nets, late, at[q - 1], at[q]);
      LastTakenIsLate(steps, nets, dpid, m, i, at[q - 1], at[q]);
    } else {
      ClocksGrow(cfg, steps, nets, late, i + 1, at[q]);
      LastTakenSinceMade(steps, nets, dpid, m, i, at[q]);
    }
  }

  lemma {:induction false} LastTakenSinceMade(steps: seq<Step>, nets: seq<Net>, dpid: Dpid, m: Match, i: nat, k: nat)
    requires i < k < |nets| == |steps| + 1 && forall l :: i + 1 <= l < k ==> nets[i + 1].now <= nets[l].now
    ensures LastTaken(steps, nets, dpid, m, i, k) >= nets[i + 1].now
  {
    if k > i + 1 {
      LastTakenSinceMade(steps, nets, dpid, m, i, k - 1);
    }
  }

  /** The rule takes them all. */
  lemma {:induction false} TheRuleTakesTheStream(cfg: Config, steps: seq<Step>, nets: seq<Net>, late: Time, dpid: Dpid, m: Match, made: Rule, i: nat,
                                                 at: seq<nat>, q: nat)
    requires InRun(cfg, steps, nets, late, |steps|) && i < |steps| && Stream(steps, nets, dpid, m, i, at) && NoneReplaces(cfg, steps, nets, dpid, m, i, at)
    requires Held(steps, nets, dpid, m, made, i, i + 1) && made.idle == 30.0 && made.hard == 60.0 && OnlyRule(steps, m, at) && q <= |at|
    ensures forall p :: 0 <= p < q ==> steps[at[p]].via == Some(m) && m in TableOf(nets[at[p]], dpid) && TableOf(nets[at[p]], dpid)[m].actions == made.actions
  {
    if q > 0 {
      TheRuleTakesTheStream(cfg, steps, nets, late, dpid, m, made, i, at, q - 1);
      NextIsTaken(cfg, steps, nets, late, dpid, m, made, i, at, q - 1);
    }
  }

  // --- No other rule ---------------------------------------------------------------------------

  /** A packet that came to the controller made this match. */
  ghost predicate MadeByPacket(cfg: Config, steps: seq<Step>, i: nat, dpid: Dpid, m: Match) {
    exists q :: 0 <= q < i && q < |steps| && SeenFor(cfg, steps[q], dpid, m)
  }

  predicate SeenFor(cfg: Config, s: Step, dpid: Dpid, m: Match) {
    s.Arrive? && s.via.None? && MayInstall(cfg, EventOfStep(s), dpid, m)
  }

  ghost predicate InstalledBy(msgs: seq<Msg>, dpid: Dpid, m: Match) {
    exists j :: 0 <= j < |msgs| && msgs[j].FlowMod? && msgs[j].dpid == dpid && msgs[j].m == m
  }

  lemma OneMessageAddsItsRule(cfg: Config, n: Net, msg: Msg, dpid: Dpid, m: Match)
    requires m in TableOf(Obey(cfg, n, msg), dpid)
    ensures m in TableOf(n, dpid) || (msg.FlowMod? && msg.dpid == dpid && msg.m == m)
  {
    if msg.FlowMod? && msg.data.Some? {
      EmittingChangesNoTable(cfg, Install(n, msg.dpid, msg.m, Rule(msg.actions, msg.idle, msg.hard, n.now, n.now)),
                             msg.dpid, Execute(msg.actions, msg.data.value), false);
    }
  }

  lemma {:induction false} MessagesAddTheirRules(cfg: Config, n: Net, msgs: seq<Msg>, dpid: Dpid, m: Match)
    requires m in TableOf(ObeyAll(cfg, n, msgs), dpid)
    ensures m in TableOf(n, dpid) || InstalledBy(msgs, dpid, m)
    decreases msgs
  {
    if msgs != [] {
      MessagesAddTheirRules(cfg, Obey(cfg, n, msgs[0]), msgs[1..], dpid, m);
      if m in TableOf(Obey(cfg, n, msgs[0]), dpid) {
        OneMessageAddsItsRule(cfg, n, msgs[0], dpid, m);
      } else {
        var j :| 0 <= j < |msgs[1..]| && msgs[1..][j].FlowMod? && msgs[1..][j].dpid == dpid && msgs[1..][j].m == m;
        assert msgs[j + 1] == msgs[1..][j];
      }
    }
  }

  lemma StepsAddTheirRules(cfg: Config, n: Net, s: Step, n': Net, late: Time, dpid: Dpid, m: Match)
    requires ConfigOk(cfg) && Follows(cfg, n, s, n', late) && n.router.outbox == [] && m in TableOf(n', dpid)
    ensures m in TableOf(n, dpid) || SeenFor(cfg, s, dpid, m)
  {
    if s.TimerFires? {
      var r' := RetryArp(cfg, n.router, s.id, n.now);
      TickSends(cfg, n.router, r', s.id, n.now);
      OnlySendingKeepsTables(cfg, n, n.router, r', n.now);
    } else if s.Arrive? && s.via.Some? {
      var rule := TableOf(n, s.dpid)[s.via.value];
      EmittingChangesNoTable(cfg, Install(n, s.dpid, s.via.value, rule.(lastHit := n.now)), s.dpid, Execute(rule.actions, s.frame), true);
    } else if s.Arrive? {
      var r' := HandlePacketIn(cfg, n.router, EventOfStep(s), s.c);
      PacketInEffects(cfg, n.router, r', EventOfStep(s), s.c);
      MessagesAddTheirRules(cfg, n.(router := r'.(outbox := []), now := s.c.u), r'.outbox, dpid, m);
    }
  }

  /** In every run, every rule was made for a packet that came to the controller. */
  lemma {:induction false} RulesHaveTheirPacket(cfg: Config, steps: seq<Step>, nets: seq<Net>, late: Time, i: nat, dpid: Dpid, m: Match)
    requires InRun(cfg, steps, nets, late, i) && m in TableOf(nets[i], dpid)
    ensures MadeByPacket(cfg, steps, i, dpid, m)
    decreases i
  {
    if i > 0 {
      StepOfRun(cfg, steps, nets, late, i - 1);
      StepsAddTheirRules(cfg, nets[i - 1], steps[i - 1], nets[i], late, dpid, m);
      if m in TableOf(nets[i - 1], dpid) {
        RulesHaveTheirPacket(cfg, steps, nets, late, i - 1, dpid, m);
      }
    }
  }

  /** No packet of these hosts and protocol whose transport header POX cannot parse comes to the
      controller. */
  ghost predicate AllParsed(steps: seq<Step>, src: Addr, dst: Addr, proto: nat) {
    forall q :: 0 <= q < |steps| && ToController(steps[q]) && IsBetween(steps[q].frame.payload.ip, src, dst, proto) ==> steps[q].frame.payload.ip.parsed
  }

  predicate IsBetween(ip: IpPacket, src: Addr, dst: Addr, proto: nat) {
    ip.src == src && ip.dst == dst && ip.proto == proto
  }

  lemma ParsedMatchesAreUnique(s: Step, m: Match, f: Frame, port: Port, m': Match, inPort: Port)
    requires s.Arrive? && f.payload.Ip? && HasTransport(f.payload.ip.proto)
    requires m' == MatchOf(s.frame, s.port).(inPort := inPort) && Matches(m', f, port) && Matches(m, f, port) && m.nw.Some? && m.tp.Some?
    requires s.frame.payload.Ip? && IsBetween(s.frame.payload.ip, f.payload.ip.src, f.payload.ip.dst, f.payload.ip.proto) ==> s.frame.payload.ip.parsed
    ensures m' == m
  {
  }

  /** So only one rule can match a packet, if its header is of a kind POX parses. */
  lemma ParsedPacketsMeetOneRule(cfg: Config, steps: seq<Step>, nets: seq<Net>, late: Time, i: nat, dpid: Dpid, m: Match, m': Match, f: Frame, port: Port)
    requires InRun(cfg, steps, nets, late, i) && Hits(nets[i], dpid, m', f, port) && Matches(m, f, port) && m.nw.Some? && m.tp.Some?
    requires f.payload.Ip? && HasTransport(f.payload.ip.proto) && AllParsed(steps, f.payload.ip.src, f.payload.ip.dst, f.payload.ip.proto)
    ensures m' == m
  {
    RulesHaveTheirPacket(cfg, steps, nets, late, i, dpid, m');
    var q :| 0 <= q < i && q < |steps| && SeenFor(cfg, steps[q], dpid, m');
    var s := steps[q];
    assert ToController(s) || !s.frame.payload.Ip?;
    ParsedMatchesAreUnique(s, m, f, port, m', m'.inPort);
  }

  // --- Connections -----------------------------------------------------------------------------

  /** A packet that passes is routed in step `i`, and POX could parse its transport header. */
  ghost predicate RoutedAt(cfg: Config, steps: seq<Step>, nets: seq<Net>, i: nat)
    requires i < |steps| && |nets| == |steps| + 1
  {
    var s, r := steps[i], nets[i].router;
    && CrossesZones(cfg, s) && IsLetThrough(cfg, r.conns, s.frame.payload.ip, s.c.t)
    && s.frame.payload.ip.dst in r.ipToLoc && cfg.maps.coreDpid in r.connections && s.frame.payload.ip.ttl > 1
    && HasTransport(s.frame.payload.ip.proto) && s.frame.payload.ip.parsed
  }

  /** The rest of the connection on its way to a switch: a stream of its packets, with nothing in between
      that may replace the switch's rule, and no packet of its hosts that POX cannot parse. */
  ghost predicate RestOf(cfg: Config, steps: seq<Step>, nets: seq<Net>, i: nat, dpid: Dpid, m: Match, at: seq<nat>)
    requires i < |steps| && |nets| == |steps| + 1 && CrossesZones(cfg, steps[i])
  {
    && Stream(steps, nets, dpid, m, i, at) && NoneReplaces(cfg, steps, nets, dpid, m, i, at)
    && AllParsed(steps, steps[i].frame.payload.ip.src, steps[i].frame.payload.ip.dst, steps[i].frame.payload.ip.proto)
  }

  lemma RestMeetsOneRule(cfg: Config, steps: seq<Step>, nets: seq<Net>, late: Time, i: nat, dpid: Dpid, inPort: Port, at: seq<nat>)
    requires InRun(cfg, steps, nets, late, |steps|) && i < |steps| && RoutedAt(cfg, steps, nets, i)
    requires RestOf(cfg, steps, nets, i, dpid, MatchOf(steps[i].frame, steps[i].port).(inPort := inPort), at)
    ensures OnlyRule(steps, MatchOf(steps[i].frame, steps[i].port).(inPort := inPort), at)
  {
    var m := MatchOf(steps[i].frame, steps[i].port).(inPort := inPort);
    forall q | 0 <= q < |at| && at[q] < |steps| && steps[at[q]].Arrive? && steps[at[q]].via.Some? ensures steps[at[q]].via == Some(m) {
      var s := steps[at[q]];
      assert ComesTo(s, dpid, m);
      StepOfRun(cfg, steps, nets, late, at[q]);
      ParsedPacketsMeetOneRule(cfg, steps, nets, late, at[q], dpid, m, s.via.value, s.frame, s.port);
    }
  }

  lemma RoutesAreHeld(cfg: Config, steps: seq<Step>, nets: seq<Net>, late: Time, i: nat)
    requires InRun(cfg, steps, nets, late, i) && i < |steps| && RoutedAt(cfg, steps, nets, i)
    ensures var s, t, loc := steps[i], nets[i + 1].now, nets[i].router.ipToLoc[steps[i].frame.payload.ip.dst];
            && DstZone(cfg, s) in cfg.gateways && CorePortFor(cfg, s.dpid, s.port).Some?
            && Held(steps, nets, cfg.maps.coreDpid, MatchOf(s.frame, s.port).(inPort := CorePortFor(cfg, s.dpid, s.port).value),
                    CoreEntry(cfg.gateways[DstZone(cfg, s)], loc, t), i, i + 1)
            && (s.dpid != cfg.maps.coreDpid ==>
                  && s.dpid in cfg.maps.leafUplinkPort
                  && Held(steps, nets, s.dpid, MatchOf(s.frame, s.port), LeafEntry(cfg.maps.leafUplinkPort[s.dpid], t), i, i + 1))
  {
    var s := steps[i];
    KnownHostsAreRoutedTo(cfg, steps, nets, late, i);
    StepOfRun(cfg, steps, nets, late, i);
    DeliveryKeepsRouter(cfg, nets[i], HandlePacketIn(cfg, nets[i].router, EventOfStep(s), s.c), s.c.u);
    assert MatchOf(s.frame, s.port).(inPort := s.port) == MatchOf(s.frame, s.port);
  }

  lemma TakenFramesLeave(cfg: Config, n: Net, s: Step, m: Match)
    requires ConfigOk(cfg) && Consistent(cfg, n.router) && s.Arrive? && s.via == Some(m) && m in TableOf(n, s.dpid)
    ensures var outs := Execute(TableOf(n, s.dpid)[m].actions, s.frame);
            && (outs == [] ==> Apply(cfg, n, s).trace == n.trace)
            && (|outs| == 1 ==> Apply(cfg, n, s).trace == n.trace + [Sent(n.now, s.dpid, outs[0].0, outs[0].1, true)])
  {
    var rule := TableOf(n, s.dpid)[m];
    var outs, hit := Execute(rule.actions, s.frame), Install(n, s.dpid, m, rule.(lastHit := n.now));
    if |outs| == 1 {
      assert outs[1..] == [];
      assert EmitAll(cfg, hit, s.dpid, outs, true) == EmitAll(cfg, Emit(cfg, hit, s.dpid, outs[0].0, outs[0].1, true), s.dpid, [], true);
    }
  }

  /** In every run, the leaf at which a connection was routed passes its packets up on its own for the next
      60 seconds, while they are less than 30 seconds apart: none of them comes to the controller, and each
      leaves through the uplink as it came, to meet the core's match at the other end. */
  lemma LeavesCarryConnections(cfg: Config, steps: seq<Step>, nets: seq<Net>, late: Time, i: nat, at: seq<nat>, q: nat)
    requires InRun(cfg, steps, nets, late, |steps|) && i < |steps| && RoutedAt(cfg, steps, nets, i) && steps[i].dpid != cfg.maps.coreDpid
    requires RestOf(cfg, steps, nets, i, steps[i].dpid, MatchOf(steps[i].frame, steps[i].port), at) && q < |at|
    ensures steps[i].dpid in cfg.maps.leafUplinkPort && steps[i].dpid in cfg.maps.leafCorePort
    ensures var s, m, n := steps[at[q]], MatchOf(steps[i].frame, steps[i].port), nets[at[q]];
            && s.via == Some(m)
            && nets[at[q] + 1].trace == n.trace + [Sent(n.now, s.dpid, To(cfg.maps.leafUplinkPort[s.dpid]), s.frame, true)]
            && Matches(m.(inPort := cfg.maps.leafCorePort[s.dpid]), s.frame, cfg.maps.leafCorePort[s.dpid])
  {
    var m, n := MatchOf(steps[i].frame, steps[i].port), nets[at[q]];
    RoutesAreHeld(cfg, steps, nets, late, i);
    SwitchIsOfTheLayout(cfg, steps[i].dpid, steps[i].port);
    RestMeetsOneRule(cfg, steps, nets, late, i, steps[i].dpid, steps[i].port, at);
    var uplink := cfg.maps.leafUplinkPort[steps[i].dpid];
    TheRuleTakesTheStream(cfg, steps, nets, late, steps[i].dpid, m, LeafEntry(uplink, nets[i + 1].now), i, at, |at|);
    StepOfRun(cfg, steps, nets, late, at[q]);
    OutputSends(To(uplink), steps[at[q]].frame);
    TakenFramesLeave(cfg, n, steps[at[q]], m);
  }

  /** And the core routes them on its own: each leaves as `_forward_ip` would send it, and only one whose
      TTL expires is dropped. */
  lemma TheCoreCarriesConnections(cfg: Config, steps: seq<Step>, nets: seq<Net>, late: Time, i: nat, at: seq<nat>, q: nat)
    requires InRun(cfg, steps, nets, late, |steps|) && i < |steps| && RoutedAt(cfg, steps, nets, i)
    requires CorePortFor(cfg, steps[i].dpid, steps[i].port).Some?
    requires RestOf(cfg, steps, nets, i, cfg.maps.coreDpid,
                    MatchOf(steps[i].frame, steps[i].port).(inPort := CorePortFor(cfg, steps[i].dpid, steps[i].port).value), at) && q < |at|
    ensures DstZone(cfg, steps[i]) in cfg.gateways && steps[at[q]].frame.payload.Ip?
    ensures var s, n, loc := steps[at[q]], nets[at[q]], nets[i].router.ipToLoc[steps[i].frame.payload.ip.dst];
            && s.via == Some(MatchOf(steps[i].frame, steps[i].port).(inPort := CorePortFor(cfg, steps[i].dpid, steps[i].port).value))
            && nets[at[q] + 1].trace
               == n.trace + if s.frame.payload.ip.ttl <= 1 then []
                            else [Sent(n.now, cfg.maps.coreDpid, To(loc.corePort), OneHopOn(s.frame.payload.ip, cfg.gateways[DstZone(cfg, steps[i])], loc), true)]
  {
    var inPort, n, loc := CorePortFor(cfg, steps[i].dpid, steps[i].port).value, nets[at[q]], nets[i].router.ipToLoc[steps[i].frame.payload.ip.dst];
    var m := MatchOf(steps[i].frame, steps[i].port).(inPort := inPort);
    RoutesAreHeld(cfg, steps, nets, late, i);
    RestMeetsOneRule(cfg, steps, nets, late, i, cfg.maps.coreDpid, inPort, at);
    var gw := cfg.gateways[DstZone(cfg, steps[i])];
    TheRuleTakesTheStream(cfg, steps, nets, late, cfg.maps.coreDpid, m, CoreEntry(gw, loc, nets[i + 1].now), i, at, |at|);
    StepOfRun(cfg, steps, nets, late, at[q]);
    assert ComesTo(steps[at[q]], cfg.maps.coreDpid, m);
    RoutedFramesLeave(cfg, n, steps[at[q]], m, gw, loc);
  }

  lemma RoutedFramesLeave(cfg: Config, n: Net, s: Step, m: Match, gateway: Gateway, loc: Location)
    requires ConfigOk(cfg) && Consistent(cfg, n.router) && s.Arrive? && s.via == Some(m) && m in TableOf(n, s.dpid) && s.frame.payload.Ip?
    requires TableOf(n, s.dpid)[m].actions == CoreEntry(gateway, loc, 0.0).actions
    ensures Apply(cfg, n, s).trace
            == n.trace + if s.frame.payload.ip.ttl <= 1 then []
                         else [Sent(n.now, s.dpid, To(loc.corePort), OneHopOn(s.frame.payload.ip, gateway, loc), true)]
  {
    RouteActionsRoute(gateway.mac, loc.mac, loc.corePort, s.frame);
    TakenFramesLeave(cfg, n, s, m);
  }
}
