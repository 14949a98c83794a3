/** Floods of blocked packets: how often the controller can be made to look at one blocked
    connection. */
module Floods {
  import opened Common
  import opened Policy
  import opened ConnTrack
  import opened OpenFlow
  import opened RouterModel
  import opened RouterInv
  import opened RouterEffects
  import opened DataPlane
  import opened Isolation

  function EventOfStep(s: Step): PacketIn
    requires s.Arrive?
  {
    PacketIn(s.dpid, s.port, s.frame, s.complete)
  }

  /** The controller sees the packet, gets as far as the firewall and is refused. */
  predicate Blocked(cfg: Config, r: Router, e: PacketIn, c: Readings) {
    && e.complete && e.frame.payload.Ip? && !IsLeafUplink(cfg, e.dpid, e.port)
    && (var ip, src := e.frame.payload.ip, ZoneOfPort(cfg, e.dpid, e.port);
        && src.Some? && SourceValid(cfg, ip.src, src.value) && !IsGateway(cfg, ip.dst)
        && cfg.zoneOf(ip.dst).Some? && cfg.zoneOf(ip.dst) != src
        && VerdictOf(r.conns, IDLE_TIMEOUT, FirewallSays(cfg, c.backend, src.value, cfg.zoneOf(ip.dst).value, ip), TrackedOf(ip), c.t) == Drop)
  }

  lemma BlockedInstallsADropRule(cfg: Config, r: Router, e: PacketIn, c: Readings)
    requires ConfigOk(cfg) && Consistent(cfg, r) && Blocked(cfg, r, e, c)
    ensures HandlePacketIn(cfg, r, e, c).outbox
            == r.outbox + [FlowMod(e.dpid, MatchOf(e.frame, e.port), 10.0, 30.0, [], None)]
  {
    var ip, src := e.frame.payload.ip, ZoneOfPort(cfg, e.dpid, e.port).value;
    var learned := Learn(cfg, r, e.dpid, e.port, ip.src, e.frame.src, src);
    LearningChecksNothing(cfg, r, e, ip.src, e.frame.src, src);
    RefusalSendsADropRule(cfg, learned, e, src, cfg.zoneOf(ip.dst).value, c);
    assert HandlePacketIn(cfg, r, e, c) == HandleHonestIp(cfg, learned, e, src, c);
  }

  lemma RefusalSendsADropRule(cfg: Config, r: Router, e: PacketIn, src: ZoneName, dst: ZoneName, c: Readings)
    requires ConfigOk(cfg) && e.frame.payload.Ip? && ZoneOfPort(cfg, e.dpid, e.port) == Some(src) && dst in cfg.gateways
    requires VerdictOf(r.conns, IDLE_TIMEOUT, FirewallSays(cfg, c.backend, src, dst, e.frame.payload.ip), TrackedOf(e.frame.payload.ip), c.t) == Drop
    ensures HandleCrossZoneIp(cfg, r, e, src, dst, c).outbox
            == r.outbox + [FlowMod(e.dpid, MatchOf(e.frame, e.port), DROP_FLOW_IDLE_TIMEOUT, DROP_FLOW_HARD_TIMEOUT, [], None)]
  {
  }

  // --- The drop rule ---------------------------------------------------------------------------

  /** A blocked packet with exactly this match reaches the controller. */
  ghost predicate BlockedSighting(cfg: Config, n: Net, s: Step, dpid: Dpid, m: Match) {
    && s.Arrive? && s.via.None? && s.dpid == dpid && MatchOf(s.frame, s.port) == m
    && Blocked(cfg, n.router, EventOfStep(s), s.c)
  }

  /** The controller sees no packet that could make it replace the rule. A packet that is refused at
      another switch gets a rule there only. */
  ghost predicate Unseen(cfg: Config, n: Net, s: Step, dpid: Dpid, m: Match) {
    s.Arrive? && s.via.None? ==>
      !MayInstall(cfg, EventOfStep(s), dpid, m) || (s.dpid != dpid && Blocked(cfg, n.router, EventOfStep(s), s.c))
  }

  predicate TakenByRule(s: Step, dpid: Dpid, m: Match) {
    s.Arrive? && s.dpid == dpid && s.via == Some(m)
  }

  /** The switch has the rule as it was made, and it last took a packet at `lastHit`. */
  predicate HasRule(n: Net, dpid: Dpid, m: Match, made: Rule, lastHit: Time) {
    m in TableOf(n, dpid) && TableOf(n, dpid)[m] == made.(lastHit := lastHit)
  }

  /** The rule made for a refused packet: 10 seconds idle, 30 in all. */
  function DropRule(at: Time): Rule {
    Rule([], 10.0, 30.0, at, at)
  }

  lemma {:induction false} EmittingChangesNoTable(cfg: Config, n: Net, dpid: Dpid, outs: seq<(OutPort, Frame)>, byRule: bool)
    ensures var n' := EmitAll(cfg, n, dpid, outs, byRule);
            n'.tables == n.tables && n'.now == n.now && n'.router == n.router
    decreases outs
  {
    if outs != [] {
      EmittingChangesNoTable(cfg, Emit(cfg, n, dpid, outs[0].0, outs[0].1, byRule), dpid, outs[1..], byRule);
    }
  }

  lemma ObeyingKeepsOtherRules(cfg: Config, n: Net, msg: Msg, dpid: Dpid, m: Match)
    requires msg.FlowMod? ==> msg.dpid != dpid || msg.m != m
    ensures var n' := Obey(cfg, n, msg);
            && n'.now == n.now && n'.router == n.router
            && Get(TableOf(n', dpid), m) == Get(TableOf(n, dpid), m)
  {
    if msg.FlowMod? && msg.data.Some? {
      EmittingChangesNoTable(cfg, Install(n, msg.dpid, msg.m, Rule(msg.actions, msg.idle, msg.hard, n.now, n.now)),
                             msg.dpid, Execute(msg.actions, msg.data.value), false);
    }
  }

  lemma {:induction false} ObeyingAllKeepsOtherRules(cfg: Config, n: Net, msgs: seq<Msg>, dpid: Dpid, m: Match)
    requires forall i :: 0 <= i < |msgs| && msgs[i].FlowMod? ==> msgs[i].dpid != dpid || msgs[i].m != m
    ensures var n' := ObeyAll(cfg, n, msgs);
            && n'.now == n.now && n'.router == n.router
            && Get(TableOf(n', dpid), m) == Get(TableOf(n, dpid), m)
    decreases msgs
  {
    if msgs != [] {
      ObeyingKeepsOtherRules(cfg, n, msgs[0], dpid, m);
      ObeyingAllKeepsOtherRules(cfg, Obey(cfg, n, msgs[0]), msgs[1..], dpid, m);
    }
  }

  lemma SightingInstallsTheRule(cfg: Config, n: Net, s: Step, n': Net, late: Time, dpid: Dpid, m: Match)
    requires ConfigOk(cfg) && Follows(cfg, n, s, n', late) && n.router.outbox == [] && BlockedSighting(cfg, n, s, dpid, m)
    ensures n.now <= n'.now && HasRule(n', dpid, m, DropRule(n'.now), n'.now)
  {
    var e := EventOfStep(s);
    BlockedInstallsADropRule(cfg, n.router, e, s.c);
    var r' := HandlePacketIn(cfg, n.router, e, s.c);
    var msg := FlowMod(dpid, m, DROP_FLOW_IDLE_TIMEOUT, DROP_FLOW_HARD_TIMEOUT, [], None);
    assert r'.outbox == [msg];
    var quiet := n.(router := r'.(outbox := []), now := s.c.u);
    assert ObeyAll(cfg, quiet, [msg]) == ObeyAll(cfg, Obey(cfg, quiet, msg), []) by {
      assert [msg][1..] == [];
    }
  }

  lemma DeliveryKeepsOtherRules(cfg: Config, n: Net, r: Router, u: Time, dpid: Dpid, m: Match)
    requires forall i :: 0 <= i < |r.outbox| && r.outbox[i].FlowMod? ==> r.outbox[i].dpid != dpid || r.outbox[i].m != m
    ensures var n' := Deliver(cfg, n, r, u);
            n'.now == u && n'.router == r.(outbox := []) && Get(TableOf(n', dpid), m) == Get(TableOf(n, dpid), m)
  {
    ObeyingAllKeepsOtherRules(cfg, n.(router := r.(outbox := []), now := u), r.outbox, dpid, m);
  }

  lemma UnseenArrivalsKeepTheRule(cfg: Config, n: Net, s: Step, dpid: Dpid, m: Match)
    requires ConfigOk(cfg) && Consistent(cfg, n.router) && n.router.outbox == [] && s.Arrive? && s.via.None? && Unseen(cfg, n, s, dpid, m)
    ensures var n' := Deliver(cfg, n, HandlePacketIn(cfg, n.router, EventOfStep(s), s.c), s.c.u);
            n'.now == s.c.u && Get(TableOf(n', dpid), m) == Get(TableOf(n, dpid), m)
  {
    var e := EventOfStep(s);
    var r' := HandlePacketIn(cfg, n.router, e, s.c);
    if MayInstall(cfg, e, dpid, m) {
      BlockedInstallsADropRule(cfg, n.router, e, s.c);
    } else {
      PacketInEffects(cfg, n.router, r', e, s.c);
    }
    DeliveryKeepsOtherRules(cfg, n, r', s.c.u, dpid, m);
  }

  /** Until the controller sees a packet of the connection again, the rule stays as it is, except that
      it remembers when it last took a packet. */
  lemma UnseenStepsKeepTheRule(cfg: Config, n: Net, s: Step, n': Net, late: Time, dpid: Dpid, m: Match, made: Rule, lastHit: Time)
    requires ConfigOk(cfg) && Follows(cfg, n, s, n', late) && n.router.outbox == [] && Unseen(cfg, n, s, dpid, m)
    requires HasRule(n, dpid, m, made, lastHit)
    ensures n.now <= n'.now && HasRule(n', dpid, m, made, if TakenByRule(s, dpid, m) then n.now else lastHit)
  {
    match s {
      case ConnectionUp(_) =>
      case SweepRuns(_, _) =>
      case Wait(_) =>
      case TimerFires(id) =>
        var r' := RetryArp(cfg, n.router, id, n.now);
        TickSends(cfg, n.router, r', id, n.now);
        DeliveryKeepsOtherRules(cfg, n, r', n.now, dpid, m);
      case Arrive(d, port, f, complete, via, c) =>
        if via.None? {
          UnseenArrivalsKeepTheRule(cfg, n, s, dpid, m);
        } else {
          var rule := TableOf(n, d)[via.value];
          EmittingChangesNoTable(cfg, Install(n, d, via.value, rule.(lastHit := n.now)), d, Execute(rule.actions, f), true);
        }
    }
  }

  // --- Sightings are far apart -----------------------------------------------------------------

  /** When the rule installed by step `i` last took a packet before step `k`, or was installed. */
  function LastTaken(steps: seq<Step>, nets: seq<Net>, dpid: Dpid, m: Match, i: nat, k: nat): Time
    requires i < k < |nets| == |steps| + 1
  {
    if k == i + 1 then nets[k].now
    else if TakenByRule(steps[k - 1], dpid, m) then nets[k - 1].now
    else LastTaken(steps, nets, dpid, m, i, k - 1)
  }

  ghost predicate UnseenBetween(cfg: Config, steps: seq<Step>, nets: seq<Net>, dpid: Dpid, m: Match, i: nat, j: nat)
    requires |nets| == |steps| + 1
  {
    forall k :: i < k < j && k < |steps| ==> Unseen(cfg, nets[k], steps[k], dpid, m)
  }

  /** A step of a run starts and ends with nothing left to send. */
  lemma StepOfRun(cfg: Config, steps: seq<Step>, nets: seq<Net>, late: Time, k: nat)
    requires InRun(cfg, steps, nets, late, k) && k < |steps|
    ensures Follows(cfg, nets[k], steps[k], nets[k + 1], late) && nets[k].router.outbox == []
  {
    RunKeepsInv(cfg, steps, nets, late, k);
  }

  /** In state `k` the switch still has the rule that step `i` made. */
  predicate Held(steps: seq<Step>, nets: seq<Net>, dpid: Dpid, m: Match, made: Rule, i: nat, k: nat)
    requires i < k < |nets| == |steps| + 1
  {
    && HasRule(nets[k], dpid, m, made, LastTaken(steps, nets, dpid, m, i, k))
    && made.installed == nets[i + 1].now && nets[i].now <= nets[i + 1].now <= LastTaken(steps, nets, dpid, m, i, k) <= nets[k].now
  }

  lemma HeldAtFirst(cfg: Config, steps: seq<Step>, nets: seq<Net>, late: Time, dpid: Dpid, m: Match, i: nat)
    requires InRun(cfg, steps, nets, late, i) && i < |steps| && BlockedSighting(cfg, nets[i], steps[i], dpid, m)
    ensures Held(steps, nets, dpid, m, DropRule(nets[i + 1].now), i, i + 1)
  {
    StepOfRun(cfg, steps, nets, late, i);
    SightingInstallsTheRule(cfg, nets[i], steps[i], nets[i + 1], late, dpid, m);
  }

  lemma HeldOneMoreStep(cfg: Config, steps: seq<Step>, nets: seq<Net>, late: Time, dpid: Dpid, m: Match, made: Rule, i: nat, k: nat)
    requires InRun(cfg, steps, nets, late, k) && i < k < |steps| && Unseen(cfg, nets[k], steps[k], dpid, m)
    requires Held(steps, nets, dpid, m, made, i, k)
    ensures Held(steps, nets, dpid, m, made, i, k + 1)
  {
    StepOfRun(cfg, steps, nets, late, k);
    UnseenStepsKeepTheRule(cfg, nets[k], steps[k], nets[k + 1], late, dpid, m, made, LastTaken(steps, nets, dpid, m, i, k));
  }

  lemma {:induction false} HeldThroughout(steps: seq<Step>, nets: seq<Net>, dpid: Dpid, m: Match, made: Rule, i: nat, j: nat)
    requires i < j < |nets| == |steps| + 1 && Held(steps, nets, dpid, m, made, i, i + 1)
    requires forall k :: i < k < j && Held(steps, nets, dpid, m, made, i, k) ==> Held(steps, nets, dpid, m, made, i, k + 1)
    ensures Held(steps, nets, dpid, m, made, i, j)
  {
    if j > i + 1 {
      HeldThroughout(steps, nets, dpid, m, made, i, j - 1);
    }
  }

  /** Any rule a step has made stays as it was made until the controller sees a packet that may replace
      it. */
  lemma MadeRulesStay(cfg: Config, steps: seq<Step>, nets: seq<Net>, late: Time, dpid: Dpid, m: Match, made: Rule, i: nat, j: nat)
    requires InRun(cfg, steps, nets, late, j) && i < j && Held(steps, nets, dpid, m, made, i, i + 1)
    requires UnseenBetween(cfg, steps, nets, dpid, m, i, j)
    ensures Held(steps, nets, dpid, m, made, i, j)
  {
    forall k | i < k < j && Held(steps, nets, dpid, m, made, i, k) ensures Held(steps, nets, dpid, m, made, i, k + 1) {
      HeldOneMoreStep(cfg, steps, nets, late, dpid, m, made, i, k);
    }
    HeldThroughout(steps, nets, dpid, m, made, i, j);
  }

  lemma TheRuleStays(cfg: Config, steps: seq<Step>, nets: seq<Net>, late: Time, dpid: Dpid, m: Match, i: nat, j: nat)
    requires InRun(cfg, steps, nets, late, j) && i < j && BlockedSighting(cfg, nets[i], steps[i], dpid, m)
    requires UnseenBetween(cfg, steps, nets, dpid, m, i, j)
    ensures Held(steps, nets, dpid, m, DropRule(nets[i + 1].now), i, j)
  {
    HeldAtFirst(cfg, steps, nets, late, dpid, m, i);
    MadeRulesStay(cfg, steps, nets, late, dpid, m, DropRule(nets[i + 1].now), i, j);
  }

  /** A packet the rule would match comes to the controller. */
  ghost predicate Sighting(s: Step, dpid: Dpid, m: Match) {
    s.Arrive? && s.via.None? && s.dpid == dpid && Matches(m, s.frame, s.port)
  }

  /** After a blocked packet the controller sees the connection again no sooner than the idle timeout
      of its drop rule, and no sooner than the hard timeout if the rule was kept busy. */
  lemma SightingsAreFarApart(cfg: Config, steps: seq<Step>, nets: seq<Net>, late: Time, dpid: Dpid, m: Match, i: nat, j: nat)
    requires InRun(cfg, steps, nets, late, j) && i < j < |steps|
    requires BlockedSighting(cfg, nets[i], steps[i], dpid, m) && Sighting(steps[j], dpid, m)
    requires UnseenBetween(cfg, steps, nets, dpid, m, i, j)
    ensures nets[j].now - nets[i + 1].now >= 10.0
    ensures nets[j].now - LastTaken(steps, nets, dpid, m, i, j) < 10.0 ==> nets[j].now - nets[i + 1].now >= 30.0
  {
    TheRuleStays(cfg, steps, nets, late, dpid, m, i, j);
    assert Follows(cfg, nets[j], steps[j], nets[j + 1], late);
    assert !Hits(nets[j], dpid, m, steps[j].frame, steps[j].port);
  }

  // --- Counting --------------------------------------------------------------------------------

  /** Consecutive blocked sightings of one match at one switch. */
  ghost predicate Flood(cfg: Config, steps: seq<Step>, nets: seq<Net>, dpid: Dpid, m: Match, at: seq<nat>)
    requires |nets| == |steps| + 1
  {
    && (forall q :: 0 <= q < |at| ==> at[q] < |steps| && BlockedSighting(cfg, nets[at[q]], steps[at[q]], dpid, m))
    && (forall q :: 0 < q < |at| ==> at[q - 1] < at[q] && UnseenBetween(cfg, steps, nets, dpid, m, at[q - 1], at[q]))
  }

  /** Between sightings, the flood never pauses long enough for its drop rule to go idle. */
  ghost predicate Steady(steps: seq<Step>, nets: seq<Net>, dpid: Dpid, m: Match, at: seq<nat>)
    requires |nets| == |steps| + 1
  {
    forall q :: 0 < q < |at| ==>
      && at[q - 1] < at[q] < |nets|
      && nets[at[q]].now - LastTaken(steps, nets, dpid, m, at[q - 1], at[q]) < DROP_FLOW_IDLE_TIMEOUT
  }

  lemma {:induction false} SpacedTimes(times: seq<Time>, gap: Time)
    requires times != [] && forall q :: 0 < q < |times| ==> times[q] - times[q - 1] >= gap
    ensures times[|times| - 1] - times[0] >= gap * (|times| - 1) as real
  {
    var n := |times| - 1;
    if n > 0 {
      SpacedTimes(times[..n], gap);
      assert gap * n as real == gap * (n - 1) as real + gap;
    }
  }

  lemma CountOfSpacedTimes(times: seq<Time>, gap: Time, window: Time)
    requires times != [] && (gap == 10.0 || gap == 30.0) && forall q :: 0 < q < |times| ==> times[q] - times[q - 1] >= gap
    requires times[|times| - 1] - times[0] <= window
    ensures |times| <= (window / gap).Floor + 1
  {
    SpacedTimes(times, gap);
    var n := |times| - 1;
    if gap == 10.0 {
      assert n as real <= window / 10.0;
    } else {
      assert n as real <= window / 30.0;
    }
  }

  /** So within a window of T seconds the controller sees one blocked connection at one switch at most
      floor(T/10) + 1 times, and at most floor(T/30) + 1 times if the flood is steady. */
  lemma FloodsAreBounded(cfg: Config, steps: seq<Step>, nets: seq<Net>, late: Time, dpid: Dpid, m: Match, at: seq<nat>, window: Time)
    requires ConfigOk(cfg) && DaemonAgrees(cfg) && 0.0 <= late && IsRun(cfg, steps, nets, late)
    requires Flood(cfg, steps, nets, dpid, m, at) && at != []
    requires nets[at[|at| - 1]].now - nets[at[0]].now <= window
    ensures |at| <= (window / 10.0).Floor + 1
    ensures Steady(steps, nets, dpid, m, at) ==> |at| <= (window / 30.0).Floor + 1
  {
    FloodTimes(cfg, steps, nets, late, dpid, m, at, DROP_FLOW_IDLE_TIMEOUT);
    FloodCount(nets, at, DROP_FLOW_IDLE_TIMEOUT, window);
    if Steady(steps, nets, dpid, m, at) {
      FloodTimes(cfg, steps, nets, late, dpid, m, at, DROP_FLOW_HARD_TIMEOUT);
      FloodCount(nets, at, DROP_FLOW_HARD_TIMEOUT, window);
    }
  }

  lemma FloodCount(nets: seq<Net>, at: seq<nat>, gap: Time, window: Time)
    requires at != [] && (gap == 10.0 || gap == 30.0) && forall q :: 0 <= q < |at| ==> at[q] < |nets|
    requires forall q :: 0 < q < |at| ==> nets[at[q]].now - nets[at[q - 1]].now >= gap
    requires nets[at[|at| - 1]].now - nets[at[0]].now <= window
    ensures |at| <= (window / gap).Floor + 1
  {
    CountOfSpacedTimes(seq(|at|, q requires 0 <= q < |at| => nets[at[q]].now), gap, window);
  }

  lemma FloodTimes(cfg: Config, steps: seq<Step>, nets: seq<Net>, late: Time, dpid: Dpid, m: Match, at: seq<nat>, gap: Time)
    requires ConfigOk(cfg) && DaemonAgrees(cfg) && 0.0 <= late && IsRun(cfg, steps, nets, late)
    requires Flood(cfg, steps, nets, dpid, m, at)
    requires gap == DROP_FLOW_IDLE_TIMEOUT || (gap == DROP_FLOW_HARD_TIMEOUT && Steady(steps, nets, dpid, m, at))
    ensures forall q :: 0 < q < |at| ==> nets[at[q]].now - nets[at[q - 1]].now >= gap
  {
    forall q | 0 < q < |at| ensures nets[at[q]].now - nets[at[q - 1]].now >= gap {
      SightingsFollow(cfg, steps, nets, late, dpid, m, at[q - 1], at[q]);
    }
  }

  lemma SightingsFollow(cfg: Config, steps: seq<Step>, nets: seq<Net>, late: Time, dpid: Dpid, m: Match, i: nat, j: nat)
    requires InRun(cfg, steps, nets, late, j) && i < j < |steps|
    requires BlockedSighting(cfg, nets[i], steps[i], dpid, m) && BlockedSighting(cfg, nets[j], steps[j], dpid, m)
    requires UnseenBetween(cfg, steps, nets, dpid, m, i, j)
    ensures nets[j].now - nets[i].now >= DROP_FLOW_IDLE_TIMEOUT
    ensures nets[j].now - LastTaken(steps, nets, dpid, m, i, j) < DROP_FLOW_IDLE_TIMEOUT
            ==> nets[j].now - nets[i].now >= DROP_FLOW_HARD_TIMEOUT
  {
    assert Matches(m, steps[j].frame, steps[j].port);
    SightingsAreFarApart(cfg, steps, nets, late, dpid, m, i, j);
    TheRuleStays(cfg, steps, nets, late, dpid, m, i, j);
  }
}
